# Portfolio gallery viewer, project cards and project grid — a Dafny model

This project models the three components of a portfolio site that hold
behaviour:

- **The image gallery viewer** (`src/components/ImageGalleryModal.tsx`). This is
  a small state machine. Its state is the current index, the direction of the
  last move (-1, 0 or 1), whether the displayed image has loaded, and whether
  the viewer is open. Its list of images does not change. The state changes
  through next, previous, a thumbnail click, a key press on the window listener,
  the image's load event, and new values of the `open` and `initialIndex`
  props. The component's two React effects become explicit rules inside those
  steps:
  - a new `initialIndex` value is copied into the current index;
  - the load flag is cleared whenever the index changes while open, or the
    viewer opens.

  Module `GalleryNavigator` (`gallery.dfy`) states each step as a function on a
  `Session` value and proves the listed properties about those functions. The
  class `Navigator` performs the same steps in place on mutable fields. Each of
  its methods is proved to leave `Model()` equal to the step function applied
  to the old state. The render's derived values are pure functions of the
  session: the two arrows, the "i / n" counter, the loading indicator, the
  displayed image and the slide-in/slide-out offsets.
- **A project card** (`src/components/BentoProjectCard.tsx`), module
  `ProjectCard` (`card.dfy`):
  - tech-stack truncation, and the "+N" overflow chip;
  - the `hasMultipleImages` guard and the image badge;
  - the colour set chosen per category, with its fallback;
  - the grid span per size;
  - the class `Card`, which mounts a `Navigator` exactly when the card has
    gallery images, and keeps the viewer's `open` prop equal to its own
    `isGalleryOpen`.
- **The project grid** (`src/components/BentoGrid.tsx`), module `ProjectGrid`
  (`grid.dfy`):
  - the category filter, where `null` and `""` both mean "no filter" because
    JavaScript treats both as false;
  - the filter label, the active-chip test and the empty-state test;
  - the class `Grid`, whose chip clicks set the selected category.

`wrappers.dfy` holds the `Option` type used for optional props.

## Behaviour worth knowing

- Reopening the viewer does not reset the index to `initialIndex`. The effect
  at `ImageGalleryModal.tsx:27-29` runs only when the `initialIndex` prop
  changes. A card never passes that prop, so a reopened gallery shows the
  image last viewed (`ReopenKeepsIndex`).
- Nothing clamps an empty image list or an out-of-range `initialIndex`. The
  model states both as preconditions (`Valid`, `Initial`, the `Navigator`
  constructor). It does not invent clamping.
- A card opens its gallery when it has at least one gallery image, not more
  than one (`OneImageEnablesGallery`).
- A thumbnail click on the current image does not clear the load flag, but
  it does set the direction to -1 (`CurrentThumbnailOnlySetsBackward`).
- Escape calls `onClose`, and the host then passes `open` as false. The model
  applies that directly as the step "open becomes false".

## Model

| member | source | states |
|---|---|---|
| `GalleryNavigator.Initial` | src/components/ImageGalleryModal.tsx:16-25 | first render: index equals `initialIndex` (default 0), direction 0, not loaded; the session is valid when the list is non-empty and the index is in range |
| `GalleryNavigator.Settle` | src/components/ImageGalleryModal.tsx:31-35 | definition of the effect on `[currentIndex, open]`: the load flag is cleared when the viewer is open afterwards and the index changed or the viewer was closed before; no contract of its own, its consequences are stated by the step functions that use it |
| `GalleryNavigator.NextStep` | src/components/ImageGalleryModal.tsx:37-42 | before the last image: index +1, direction 1, load flag cleared if open; at the last image the session is unchanged (no wrap-around); validity preserved |
| `GalleryNavigator.PreviousStep` | src/components/ImageGalleryModal.tsx:44-49 | after the first image: index -1, direction -1, load flag cleared if open; at the first image the session is unchanged; validity preserved |
| `GalleryNavigator.ThumbnailDirection` | src/components/ImageGalleryModal.tsx:314 | the recorded direction is always ±1, and it is forward exactly when the clicked index is after the current one |
| `GalleryNavigator.SelectStep` | src/components/ImageGalleryModal.tsx:313-316 | index becomes the clicked index; direction as above; load flag cleared only if open and the index really changed; in-range clicks keep validity |
| `GalleryNavigator.LoadedStep` | src/components/ImageGalleryModal.tsx:207 | sets the load flag and changes nothing else |
| `GalleryNavigator.SetOpenStep` | src/components/ImageGalleryModal.tsx:31-35 | open takes the new value; the load flag is cleared exactly when the viewer goes from closed to open; index and direction are untouched |
| `GalleryNavigator.SetInitialIndexStep` | src/components/ImageGalleryModal.tsx:27-29 | the same prop value changes nothing; a different value becomes the current index, direction untouched, load flag cleared if open and the index moved |
| `GalleryNavigator.KeyStep` | src/components/ImageGalleryModal.tsx:51-62 | while closed every key is ignored; while open the right arrow is `NextStep`, the left arrow `PreviousStep` and Escape closes the viewer (`SetOpenStep` to false); any other key is ignored; validity preserved |
| `GalleryNavigator.Counter` | src/components/ImageGalleryModal.tsx:150 | the counter is (index + 1, number of images), and in a valid session 1 <= numerator <= denominator |
| `GalleryNavigator.ShowsPreviousArrow` | src/components/ImageGalleryModal.tsx:237 | definition of the previous-arrow guard `currentIndex > 0`; no contract, see `ArrowsShownIffMoveApplies` |
| `GalleryNavigator.ShowsNextArrow` | src/components/ImageGalleryModal.tsx:259 | definition of the next-arrow guard `currentIndex < images.length - 1`; no contract, see `ArrowsShownIffMoveApplies` |
| `GalleryNavigator.ShowsLoading` | src/components/ImageGalleryModal.tsx:223 | definition of the loading-indicator guard `!imageLoaded`; no contract, see `ChangeShowsLoading` and `ReopenKeepsIndex` |
| `GalleryNavigator.DisplayedImage` | src/components/ImageGalleryModal.tsx:205 | the main view shows an image from the list |
| `GalleryNavigator.EnterOffset` | src/components/ImageGalleryModal.tsx:69-72 | enter offset is ±1000, positive exactly after a forward move |
| `GalleryNavigator.ExitOffset` | src/components/ImageGalleryModal.tsx:77-80 | exit offset is ±1000, positive exactly after a backward move |
| `GalleryNavigator.OffsetsAreOpposite` | src/components/ImageGalleryModal.tsx:68-81 | after a move of ±1 the enter and exit offsets are negations; before any move both are -1000 |
| `GalleryNavigator.RunPreservesValid` | src/components/ImageGalleryModal.tsx:23-49 | every trace of events whose thumbnail and initial indices are in range keeps the index in range and the image list unchanged |
| `GalleryNavigator.RepeatNextStopsAtLast` | src/components/ImageGalleryModal.tsx:37-42 | n forward moves end at min(index + n, last index) |
| `GalleryNavigator.RepeatPreviousStopsAtFirst` | src/components/ImageGalleryModal.tsx:44-49 | n backward moves end at max(index - n, 0) |
| `GalleryNavigator.ArrowsShownIffMoveApplies` | src/components/ImageGalleryModal.tsx:237-279 | each arrow is rendered exactly when its move would change the index; a one-image gallery shows neither arrow and both moves do nothing |
| `GalleryNavigator.NextAndPreviousAreInverse` | src/components/ImageGalleryModal.tsx:37-49 | a move forward then back (or back then forward) returns to the starting index, with the direction of the last move |
| `GalleryNavigator.NeighbourThumbnailIsArrow` | src/components/ImageGalleryModal.tsx:313-316 | clicking the thumbnail just after or just before the current image is exactly the arrow's step |
| `GalleryNavigator.CurrentThumbnailOnlySetsBackward` | src/components/ImageGalleryModal.tsx:313-316 | clicking the current thumbnail changes only the direction, to -1; the load flag is kept |
| `GalleryNavigator.OnlyLoadSetsLoaded` | src/components/ImageGalleryModal.tsx:207 | no event except the image load sets the load flag; loading twice equals loading once |
| `GalleryNavigator.ChangeShowsLoading` | src/components/ImageGalleryModal.tsx:31-35 | after any event that moved the index while open, or opened the viewer, the loading indicator is shown |
| `GalleryNavigator.ClosedIgnoresKeys` | src/components/ImageGalleryModal.tsx:52-53 | while closed, any sequence of key presses leaves the session unchanged |
| `GalleryNavigator.EscapeClosesOnce` | src/components/ImageGalleryModal.tsx:59-61 | Escape while open closes without moving the index, and no later key changes anything |
| `GalleryNavigator.ReopenKeepsIndex` | src/components/ImageGalleryModal.tsx:27-35 | closing and reopening keeps index and direction and shows the loading indicator |
| `GalleryNavigator.ThreeImageWalk` | src/components/ImageGalleryModal.tsx:37-49 | with three images: forward twice reaches index 2, a third forward is ignored, backward lands on 1 with direction -1 |
| `GalleryNavigator.ThumbnailJumpForward` | src/components/ImageGalleryModal.tsx:313-316 | with four images at index 1, loaded: a click on thumbnail 3 moves forward and shows loading |
| `GalleryNavigator.Navigator.constructor` | src/components/ImageGalleryModal.tsx:16-25 | mounting yields the initial session |
| `GalleryNavigator.Navigator.Next` | src/components/ImageGalleryModal.tsx:37-42 | the new state is `NextStep` of the old one |
| `GalleryNavigator.Navigator.Previous` | src/components/ImageGalleryModal.tsx:44-49 | the new state is `PreviousStep` of the old one |
| `GalleryNavigator.Navigator.SelectThumbnail` | src/components/ImageGalleryModal.tsx:307-316 | for an in-range thumbnail, the new state is `SelectStep` of the old one |
| `GalleryNavigator.Navigator.ImageLoaded` | src/components/ImageGalleryModal.tsx:207 | the new state is `LoadedStep` of the old one |
| `GalleryNavigator.Navigator.SetOpen` | src/components/ImageGalleryModal.tsx:31-35 | the new state is `SetOpenStep` of the old one |
| `GalleryNavigator.Navigator.SetInitialIndex` | src/components/ImageGalleryModal.tsx:27-29 | the new state is `SetInitialIndexStep` of the old one |
| `GalleryNavigator.Navigator.KeyDown` | src/components/ImageGalleryModal.tsx:51-66 | the new state is `KeyStep` of the old one |
| `ProjectCard.ImageBadge` | src/components/BentoProjectCard.tsx:192-221 | the badge is shown exactly when the image section exists and `hasMultipleImages` holds, and it shows the number of gallery images (at least 1) |
| `ProjectCard.EffectiveSize` | src/components/BentoProjectCard.tsx:53 | definition of the destructuring default `size = "small"`; no contract, see `DefaultCardIsOneCell` |
| `ProjectCard.IsTruthy` | src/components/BentoProjectCard.tsx:141 | definition of JavaScript truthiness of an optional string (absent and "" are false); no contract |
| `ProjectCard.HasMultipleImages` | src/components/BentoProjectCard.tsx:57 | definition of `images && images.length > 0`; no contract, see `OneImageEnablesGallery` |
| `ProjectCard.ShowsImageSection` | src/components/BentoProjectCard.tsx:141 | definition of the `image &&` render guard; no contract, see `ImageBadge` and `Card.ClickImageSection` |
| `ProjectCard.OneImageEnablesGallery` | src/components/BentoProjectCard.tsx:57 | a single gallery image already makes `hasMultipleImages` true, with the badge 1 |
| `ProjectCard.VisibleTech` | src/components/BentoProjectCard.tsx:267 | the visible chips are the first min(length, limit) entries, in order; the limit is 8 for large cards and 5 otherwise |
| `ProjectCard.TechLimit` | src/components/BentoProjectCard.tsx:267 | definition of the chip limit `size === "large" ? 8 : 5`; no contract, see `VisibleTech` and `OverflowCount` |
| `ProjectCard.OverflowCount` | src/components/BentoProjectCard.tsx:293-295 | the "+N" chip appears exactly when the stack is longer than the limit, N >= 1, and visible count + N = stack length |
| `ProjectCard.ColorsAsWritten` | src/components/BentoProjectCard.tsx:79 | the expression as written never falls through to `undefined`, but yields a non-colour exactly for the names inherited from `Object.prototype` |
| `ProjectCard.LookupColors` | src/components/BentoProjectCard.tsx:79 | definition of indexing the `categoryColors` object literal: an own key, else an inherited `Object.prototype` name, else `undefined`; no contract, see `ColorsAsWritten` |
| `ProjectCard.InheritedNameDefeatsFallback` | src/components/BentoProjectCard.tsx:79 | for the categories "toString" and "constructor" the lookup as written yields an inherited member, not the web3 colours |
| `ProjectCard.CardColors` | src/components/BentoProjectCard.tsx:21-42 | a card always gets one of the four colour sets: its own category's, or the web3 set for any category outside the four |
| `ProjectCard.AsWrittenAgreesOffPrototypeNames` | src/components/BentoProjectCard.tsx:79 | for every category that is not an inherited name, the code as written and `CardColors` agree |
| `ProjectCard.GridSpan` | src/components/BentoProjectCard.tsx:81-85 | every card is 1x1 on phones; from md up only small cards are one column wide and only large cards are two rows tall |
| `ProjectCard.DefaultCardIsOneCell` | src/components/BentoProjectCard.tsx:53 | a card without a size is a small card: 1x1 everywhere, 5 tech chips |
| `ProjectCard.Card.constructor` | src/components/BentoProjectCard.tsx:372-378 | the viewer is mounted exactly when `hasMultipleImages`, closed, with the card's images and initial index 0 |
| `ProjectCard.Card.ClickImageSection` | src/components/BentoProjectCard.tsx:141-151 | a click on the image section opens the gallery only when `hasMultipleImages`, and the viewer receives `open` true |
| `ProjectCard.Card.CloseGallery` | src/components/BentoProjectCard.tsx:376 | `onClose` sets `isGalleryOpen` false and the viewer receives `open` false |
| `ProjectCard.Card.KeyDown` | src/components/BentoProjectCard.tsx:372-378 | a key reaches the mounted viewer's listener; only Escape on an open viewer closes the card's gallery |
| `ProjectCard.Card.MouseEnter` | src/components/BentoProjectCard.tsx:99 | hovering sets `isHovered`, leaves the gallery state alone and keeps the card invariant |
| `ProjectCard.Card.MouseLeave` | src/components/BentoProjectCard.tsx:73-77 | leaving clears `isHovered`, leaves the gallery state alone and keeps the card invariant |
| `ProjectGrid.FilterByCategory` | src/components/BentoGrid.tsx:27 | the result is a subsequence of the projects, all of the category, with every matching project occurring exactly as often as in the input |
| `ProjectGrid.FilteredProjects` | src/components/BentoGrid.tsx:26-28 | the shown list is a subsequence of the projects, no longer than them, and equals them when the selection is `null` or "" |
| `ProjectGrid.SelectionShowsExactlyItsCategory` | src/components/BentoGrid.tsx:26-27 | a project is shown if and only if it is in the list and passes the selection |
| `ProjectGrid.EmptyStateIffNonePasses` | src/components/BentoGrid.tsx:146 | the empty-state message is shown if and only if no project passes the selection |
| `ProjectGrid.FilterIsIdempotent` | src/components/BentoGrid.tsx:27 | filtering the filtered list again by the same category changes nothing |
| `ProjectGrid.LabelNamesShownCategory` | src/components/BentoGrid.tsx:52 | with no selection the label is "all" and every project is shown; otherwise every shown project has the category the label names |
| `ProjectGrid.EmptyCategoryActsAsNoFilter` | src/components/BentoGrid.tsx:26-28 | the selection "" shows all projects with the label "all", like `null`, yet the `null` chip is not highlighted |
| `ProjectGrid.FilterLabel` | src/components/BentoGrid.tsx:52 | definition of the label: the selected category when it is truthy, otherwise "all"; no contract, see `LabelNamesShownCategory` |
| `ProjectGrid.IsActive` | src/components/BentoGrid.tsx:65 | definition of `cat.value === selectedCategory`; no contract, see `EmptyCategoryActsAsNoFilter` and `Grid.ClickChip` |
| `ProjectGrid.ShowsEmptyState` | src/components/BentoGrid.tsx:146 | definition of `filteredProjects.length === 0`; no contract, see `EmptyStateIffNonePasses` |
| `ProjectGrid.Grid.constructor` | src/components/BentoGrid.tsx:24 | nothing is selected at first, so every `null`-valued chip is active and all projects are shown |
| `ProjectGrid.Grid.Shown` | src/components/BentoGrid.tsx:128 | definition of the rendered cards as `FilteredProjects` of the current selection; no contract, see `Grid.constructor` and `Grid.ClickChip` |
| `ProjectGrid.Grid.ClickChip` | src/components/BentoGrid.tsx:64-74 | a chip click selects the chip's value, the chip becomes active, and the shown list is filtered by it |

## Findings

| source | as written | input that shows it | evidently intended | confidence | as-written member | corrected member |
|---|---|---|---|---|---|---|
| src/components/BentoProjectCard.tsx:79 | the lookup `categoryColors[category]` falls back to `categoryColors.web3` only when it yields a false value such as `undefined` | category `"toString"` (or `"constructor"` or any other `Object.prototype` name): the lookup yields an inherited function, which counts as true, so the card's colours `start`, `end` and `glow` are all `undefined` | every category outside web3/cybersecurity/ai/mobile gets the web3 colour set | high; not executed | `ProjectCard.ColorsAsWritten` (shown by `ProjectCard.InheritedNameDefeatsFallback`) | `ProjectCard.CardColors` |

## Left out

- Styling, gradients, MUI `sx` props and layout. They have no behaviour to state.
- The mouse-tilt math (`handleMouseMove`, `useTransform`). It is floating-point
  and depends on DOM geometry. Only the hover flag is modelled.
- framer-motion spring and opacity timing, and `AnimatePresence` mounting.
  Only the integer enter/exit offsets are modelled. An image that is still
  leaving the screen can fire `onLoad` for the old index. The model does not
  capture this, because it treats the load event as belonging to the
  displayed image.
- The window listener's attach and detach, React render batching, the moment
  effects run, and stale closures. Each event is applied to the current
  state. The listener is treated as always attached, and its own
  `if (!open) return` guard decides. The source checks the boundary against
  the rendered index but updates through `prev => prev + 1`. The model
  therefore assumes a re-render between two events. The case of an `onLoad`
  that arrives before the reset effect has run is also not modelled.
- MUI `Modal` internals: backdrop clicks, focus trapping, and its own Escape
  handling. These are outside library code. The close button is modelled only
  as the card's `onClose` (`Card.CloseGallery`).
- Fetching and decoding images. `onLoad` is an external event that may never
  arrive. A decode failure leaves the load flag false.
- The "+N" chip's text and the counter's text. The model gives the numbers,
  not their formatting as strings.
- React keys (`key={tech}`, `key={project.title}`, `key={cat.label}`), the
  grid's `AnimatePresence` key, and per-card animation delays.
- The links to GitHub and the live demo.
- The thumbnail border and opacity highlight. It is styling keyed on
  `idx === currentIndex`.
