# Interior designer website: the logic behind its pages, in Dafny

The website is a Next.js/React site for an interior designer. Most of it is
markup. This project models and proves the parts that compute or keep state:

- **Photo and document listings.** The project photo listing served by
  `src/app/api/projects/route.ts` and built by `getProjects`/`getCategories` in
  `src/app/data/projects.ts`. The documentation listing of
  `src/app/data/documentation.ts` and `src/app/api/documentation/route.ts`.
  Each keeps the files with an image extension (plus `.pdf` in one variant) and
  numbers them 1, 2, … with one counter shared across folders. Each builds the
  public path and derives a title from the file name.
- **Gallery carousel** (`GallerySection.tsx`). A strip that steps one item left
  or right within bounds. The number of visible items comes from the viewport
  width. The component also tracks the image it hands to its lightbox.
- **Full-screen image viewer** (`Modal.tsx`):
  - prev/next with a slide animation, allowed only at scale 1 and with no
    slide running;
  - closing with an animation, and keyboard control;
  - pinch zoom clamped to [1, 5], and panning a zoomed image within bounds;
  - swipe to navigate or to close, and double-click/double-tap zoom.
- **Quote request form** (`ModalForm.tsx`):
  - a room-type checkbox group that keeps at most one option;
  - text fields updated by name;
  - a submit gated on the privacy-policy checkbox, which shows an error and a
    tooltip that hides itself after 3 seconds.
- **Site header** (`Header.tsx`). Side menu and quote form toggles, and the
  `tel:` link built from the displayed phone number.

Layout:

| file | module | models |
|---|---|---|
| `common.dfy` | `Numeric`, `Media` | `Abs`, `Min`, `Max` and `Clamp` on reals; the `{id, image, title}` record; `Option` |
| `file_names.dfy` | `FileNames` | the extension filters, the extension strip, the separator replacement and the title |
| `project_listing.dfy` | `ProjectListing` | the project routes' loops, proved against reference functions |
| `documentation_listing.dfy` | `DocumentationListing` | the documentation routes |
| `gallery.dfy` | `Gallery` | class `Carousel` |
| `lightbox.dfy` | `Lightbox` | the viewer's transitions as functions on its state, and class `Viewer` proved against them |
| `quote_form.dfy` | `QuoteForm` | the form record's update, and class `Form` |
| `header.dfy` | `Header` | the digit strip, and class `SiteHeader` |

### What is abstracted

- **The file system.** It becomes the listing it would return: the entries of
  the projects directory in `readdir` order, each saying whether it is a
  directory and, if so, which file names it holds.
- **Timers.** Each `setTimeout` becomes a "timer fired" method or event. A
  counter or flag records how many timers are pending.
- **External inputs.** `Date.now()` values, measurements of the page
  (`getBoundingClientRect`, `offsetWidth`) and finger distances are parameters.
  An unmounted element is `None`.
- **Callbacks.** Each call of an `onClose` callback is counted.
- **Regular expressions.** They are written out by hand:
  - `/\.(jpe?g|png|webp)$/i` is a case-insensitive ASCII suffix test;
  - `/\.[^/.]+$/` removes the final dot and everything after it, but only if at
    least one character follows the dot and none of them is `/`;
  - `/[-_]/g` turns each `-` or `_` into a space;
  - `/\D/g` removes every character that is not `0`-`9`.
- **React state.** A handler sees the state of the render it belongs to, and
  refs change at once. Where one handler calls another (the end of a swipe
  calls `handlePrev`), the model passes that render's values explicitly.
  Each event is applied to the state of a fresh render: React is assumed to
  have rendered between any two events. The model does not cover two events
  handled by the same render. Two `touchmove`s in one render, for example,
  would combine a stale `scale` with a `touchStartDistance.current` that the
  first move already changed (`Modal.tsx:252-256`).
- **Arithmetic.** Scales, positions and offsets are exact reals. Ids and
  timestamps are unbounded integers.

### Behaviour of the code worth knowing

- **Closing has no re-entry guard.** `handleClose` (`Modal.tsx:107-116`) never
  checks `isClosing`. A second close before the first timer fires schedules a
  second timer, so `onClose` is called twice (`DoubleCloseCallsOnCloseTwice`).
- **A dead early return.** In `handleTouchEnd` (`Modal.tsx:309-315`),
  `isImageDragging` is cleared before it is tested. So the early return there
  never runs, and a drag that panned a zoomed image still reaches the swipe
  logic. At a scale other than 1, that logic does nothing.
- **A swipe can end in a zoom.** Every touch end that does not end a pinch
  reaches the double-tap check (`Modal.tsx:336-360`), a swipe's end included.
  Take a swipe at scale 1 that ends within 300 ms of the previous touch end.
  It navigates, and then `setScale(2)` (`Modal.tsx:349`) overrides the reset
  to 1 that `handlePrev`/`handleNext` made (`DoubleTapAfterSwipeZooms`).
- **A double click or tap does not always restore the room type.** Clicking
  the same room-type option twice restores the record only when the type was
  unset or already that option (`ModalForm.tsx:61-66`). From another option,
  the second click leaves the type unset (`ToggleTwice`).

## Model

| member | source | states |
|---|---|---|
| Numeric.Clamp | src/app/features/Modal/Modal.tsx:252-254 | the result lies in [lo, hi], equals x when x is in range, and is lo below and hi above |
| FileNames.FilterNames | src/app/api/projects/route.ts:26 | a name is kept exactly when it is in the input and passes the extension filter, and no more names come out than went in |
| FileNames.FilterNamesAppend | src/app/data/documentation.ts:18 | filtering a concatenation is concatenating the filtered parts: the relative order of the files is kept |
| FileNames.Lower | src/app/api/projects/route.ts:26 | the `/i` flag folds exactly the ASCII capitals onto their lower-case letters |
| FileNames.LastDot | src/app/api/projects/route.ts:30 | the position of the last '.' of the name, or -1 when there is none; no '.' follows it |
| FileNames.StripExtension | src/app/api/projects/route.ts:30 | the result is a prefix of the name, and when something was removed it started at a '.' after which no '.' follows |
| FileNames.StripExtensionOfJoin | src/app/api/projects/route.ts:30 | inverse of appending an extension: stripping `base + "." + ext`, with a non-empty `ext` that holds neither '.' nor '/', gives back `base` |
| FileNames.SeparatorsToSpaces | src/app/api/projects/route.ts:30 | same length; every '-' and '_' becomes a space and every other character is kept |
| FileNames.Title | src/app/data/projects.ts:31 | the title holds no '-' and no '_', and is as long as the stripped name |
| FileNames.MatchedSuffix | src/app/data/documentation.ts:18 | an accepted name ends, case-insensitively, in one of `.jpg`, `.jpeg`, `.png`, `.webp`, `.pdf` |
| FileNames.StripMatchedSuffix | src/app/data/documentation.ts:23 | a name ending, in any case, in a dot and lower-case letters loses exactly that suffix to the strip |
| FileNames.AcceptedNameStrip | src/app/data/documentation.ts:18-23 | for every accepted name the strip removes exactly the matched extension |
| FileNames.TitleLength | src/app/api/projects/route.ts:30 | the title of an accepted name is as long as the name less its matched extension |
| FileNames.PdfIsNotImage | src/app/api/documentation/route.ts:21 | a `.pdf` name never passes the image filter |
| FileNames.TitleExamples | src/app/data/projects.ts:31 | `a-b.PNG` gives the title `a b`; `archive.tar.gz` loses only `.gz` |
| ProjectListing.ImagesInMembership | src/app/data/projects.ts:24-27 | a file comes out of an entry exactly when the entry is a directory, the file is in it and has an image extension |
| ProjectListing.ImagesIn | src/app/data/projects.ts:24-27 | reference definition of one entry's contribution: nothing for a non-directory, else its image files in directory order with the directory as category (properties in `ImagesInMembership`) |
| ProjectListing.ListedImages | src/app/api/projects/route.ts:19-34 | reference definition of every kept file, directory after directory (properties in `ListedImagesMembership`, `ListedImagesStep`, `ListedImagesAppend`) |
| ProjectListing.Numbered | src/app/api/projects/route.ts:28-31 | reference definition of the shared counter: the k-th source gets id `first + k`, its path and its title (properties in `NumberedAppend`, `NumberedSourcesSnoc`) |
| ProjectListing.Projects | src/app/data/projects.ts:18-38 | reference definition of `getProjects`' result: the kept files numbered from 1 (properties in `ProjectsShape`, `ProjectsAppend`, `FoldersAreCategories`) |
| ProjectListing.ItemsOf | src/app/api/projects/route.ts:27-31 | reference definition of the route's records: each project without category and folder (properties in `ItemsOfAppend`) |
| ProjectListing.Categories | src/app/data/projects.ts:43-57 | reference definition of `getCategories`' result: the directory names in listing order (properties in `CategoriesMembership`) |
| ProjectListing.ListedImagesMembership | src/app/api/projects/route.ts:19-34 | a file is listed exactly when some directory entry holds it and its name has an image extension; other entries contribute nothing |
| ProjectListing.ListedImagesStep | src/app/api/projects/route.ts:19-34 | one more entry adds its own kept files after those of the entries before it |
| ProjectListing.NumberedAppend | src/app/api/projects/route.ts:28 | numbering a concatenation continues the count of the first part into the second |
| ProjectListing.NumberedSourcesSnoc | src/app/data/projects.ts:28-29 | one more file of a directory gets the next id and its `/projects/<category>/<file>` path |
| ProjectListing.CategoriesMembership | src/app/data/projects.ts:48-55 | a name is a category exactly when some directory entry has that name |
| ProjectListing.FoldersAreCategories | src/app/data/projects.ts:20-37 | over the same listing, every project's folder is one of the categories `getCategories` returns |
| ProjectListing.ProjectFolderIsCategory | src/app/data/projects.ts:32-33 | the folder of the k-th project is a category of the listing |
| ProjectListing.ListedCategoryIsCategory | src/app/data/projects.ts:43-56 | the directory of every listed file is among the categories |
| ProjectListing.ProjectsShape | src/app/data/projects.ts:18-33 | one project per kept file, the k-th with id k + 1 (so ids are 1..N and unique), and category equal to folder |
| ProjectListing.ProjectsAppend | src/app/api/projects/route.ts:17-34 | the listing of `a + b` is the listing of `a` followed by `b`'s files numbered on from where `a` stopped: one shared counter, directory order, then file order |
| ProjectListing.ListedImagesAppend | src/app/api/projects/route.ts:19-35 | the kept files of two listings in a row are those of the first followed by those of the second |
| ProjectListing.CategoryProjects | src/app/data/projects.ts:26-34 | the inner filter/map loop returns the directory's kept files numbered from the counter's value, each with its path, title, category and folder |
| ProjectListing.GetProjects | src/app/data/projects.ts:13-41 | the loop over the entries returns exactly the reference listing, keeping the counter one past the last id |
| ProjectListing.ItemsOfAppend | src/app/api/projects/route.ts:33 | dropping category and folder commutes with concatenation |
| ProjectListing.CategoryItems | src/app/api/projects/route.ts:24-31 | the route's inner loop returns the directory's kept files as `{id, image, title}` numbered from the counter's value |
| ProjectListing.ProjectsRoute | src/app/api/projects/route.ts:11-37 | the route answers the reference listing without category and folder |
| ProjectListing.GetCategories | src/app/data/projects.ts:43-57 | the names of the directory entries in listing order, and a name is returned exactly when it names a directory entry |
| DocumentationListing.NumberedDocumentsSnoc | src/app/data/documentation.ts:20-24 | one more file gets the next id, its `/documentation/` path and its title |
| DocumentationListing.Documents | src/app/data/documentation.ts:11-27 | reference definition of the listing: the accepted files numbered from 1 (properties in `DocumentsShape`, `DocumentsKeepOrder`, `DocumentPathListed`) |
| DocumentationListing.NumberedDocuments | src/app/data/documentation.ts:20-24 | reference definition of the map with its counter: the k-th kept name gets id k + 1, its path and its title (properties in `NumberedDocumentsSnoc`, `DocumentsShape`) |
| DocumentationListing.NumberDocuments | src/app/data/documentation.ts:16-24 | the map with its counter numbers the filtered files 1, 2, … in order |
| DocumentationListing.DocumentsShape | src/app/data/documentation.ts:18-24 | the k-th record is the k-th kept file with id k + 1, path `/documentation/<file>` and its title |
| DocumentationListing.GetDocumentation | src/app/data/documentation.ts:11-27 | the records of the jpg/jpeg/png/webp/pdf files, numbered in order |
| DocumentationListing.DocumentationRoute | src/app/api/documentation/route.ts:12-30 | the records of the jpg/jpeg/png/webp files, numbered in order |
| DocumentationListing.DocumentPathListed | src/app/api/documentation/route.ts:20-26 | a path is listed exactly when its file is in the directory and passes the filter |
| DocumentationListing.DocumentPathInjective | src/app/data/documentation.ts:22 | different files get different paths |
| DocumentationListing.RouteListsAllButPdfs | src/app/api/documentation/route.ts:21 | every path the route lists, `getDocumentation` lists too, and the paths only `getDocumentation` lists are exactly those of the pdf files |
| DocumentationListing.ListedPathsAreDocumentPaths | src/app/data/documentation.ts:22 | every listed path is `/documentation/` followed by a file of the directory |
| DocumentationListing.DocumentsKeepOrder | src/app/data/documentation.ts:18-24 | the listing of `a + b` is that of `a` followed by that of `b`: the input order is kept |
| DocumentationListing.ImagesOfNumbered | src/app/data/documentation.ts:22 | the paths of the numbered records are the paths of the kept files, in order |
| DocumentationListing.PathsAppend | src/app/data/documentation.ts:20-24 | the paths of a concatenation are the concatenated paths |
| Gallery.VisibleItemsFor | src/app/features/Gallery/GallerySection.tsx:46-54 | the mobile count up to 768 px, the tablet count from 769 to 1023 px, the default count above |
| Gallery.CanGoLeft | src/app/features/Gallery/GallerySection.tsx:61 | the guard of `goLeft`: the index is above 0 (used by `StepsMoveByOne`) |
| Gallery.CanGoRight | src/app/features/Gallery/GallerySection.tsx:62 | the guard of `goRight`: the index is below `items.length - visibleItems` (used by `StepsMoveByOne`) |
| Gallery.StepLeft | src/app/features/Gallery/GallerySection.tsx:64-68 | reference definition of the index after `goLeft` (properties in `StepsMoveByOne`) |
| Gallery.StepRight | src/app/features/Gallery/GallerySection.tsx:70-74 | reference definition of the index after `goRight` (properties in `StepsMoveByOne`) |
| Gallery.StripAfter | src/app/features/Gallery/GallerySection.tsx:61-74 | reference definition of the index after a sequence of presses (properties in `StripStaysInRange`, `StripFrozenWhenAllVisible`) |
| Gallery.StepsMoveByOne | src/app/features/Gallery/GallerySection.tsx:61-74 | `goLeft` at 0 and `goRight` at `items.length - visibleItems` or beyond change nothing; otherwise they move by exactly one |
| Gallery.StripStaysInRange | src/app/features/Gallery/GallerySection.tsx:61-74 | with the count fixed, any sequence of presses keeps the index in [0, max(0, items.length - visibleItems)] |
| Gallery.StripFrozenWhenAllVisible | src/app/features/Gallery/GallerySection.tsx:61-62 | when every item fits, the strip stays at 0 whatever is pressed |
| Gallery.TransformOffset | src/app/features/Gallery/GallerySection.tsx:76-83 | the offset is `currentIndex * (100 + gapPercent) / visibleItems` percent |
| Gallery.TransformOffsetShape | src/app/features/Gallery/GallerySection.tsx:76-83 | the offset is 0 at the first item, strictly increasing in the index, and a page of `visibleItems` steps adds exactly 100% plus the gap |
| Gallery.SelectPrev | src/app/features/Gallery/GallerySection.tsx:99-105 | reference definition of the selected index after `handlePrevImage`: one back unless at 0 (properties in `SelectionStaysOnItems`) |
| Gallery.SelectNext | src/app/features/Gallery/GallerySection.tsx:107-113 | reference definition of the selected index after `handleNextImage`: one on unless at the last item (properties in `SelectionNextCount`) |
| Gallery.SelectionAfter | src/app/features/Gallery/GallerySection.tsx:99-113 | reference definition of the selected index after a sequence of lightbox prev/next calls (properties in `SelectionStaysOnItems`, `SelectionNextCount`) |
| Gallery.SelectionStaysOnItems | src/app/features/Gallery/GallerySection.tsx:94-113 | after a click on an item, any sequence of lightbox prev/next keeps the selected index on an item |
| Gallery.SelectionNextCount | src/app/features/Gallery/GallerySection.tsx:107-113 | k presses of next that reach no boundary move the selection exactly k places |
| Gallery.Carousel.constructor | src/app/features/Gallery/GallerySection.tsx:32-43 | index 0, the default count, no selected image, selected index 0 |
| Gallery.Carousel.HandleResize | src/app/features/Gallery/GallerySection.tsx:46-54 | the count for the width; the index and the selection unchanged |
| Gallery.Carousel.GoLeft | src/app/features/Gallery/GallerySection.tsx:64-68 | the index steps left when it can, keeps its range, and nothing else changes |
| Gallery.Carousel.GoRight | src/app/features/Gallery/GallerySection.tsx:70-74 | the index steps right when it can, keeps its range, and nothing else changes |
| Gallery.Carousel.Transform | src/app/features/Gallery/GallerySection.tsx:76-83 | `getTransform`'s offset for the carousel's current fields, `TransformOffset` of them (properties in `TransformOffset`, `TransformOffsetShape`) |
| Gallery.Carousel.HandleImageClick | src/app/features/Gallery/GallerySection.tsx:94-97 | the clicked item becomes the selection and the image shown is its own |
| Gallery.Carousel.HandlePrevImage | src/app/features/Gallery/GallerySection.tsx:99-105 | the selection moves back one unless at 0, where nothing changes, and the image shown stays that of the selected item |
| Gallery.Carousel.HandleNextImage | src/app/features/Gallery/GallerySection.tsx:107-113 | the selection moves on one unless at the last item, where nothing changes, and the image shown stays that of the selected item |
| Gallery.Carousel.CloseLightbox | src/app/features/Gallery/GallerySection.tsx:170 | no image selected; the index kept |
| Lightbox.PinchScale | src/app/features/Modal/Modal.tsx:252-254 | the new scale lies in [1, 5]; fingers moving apart never zoom out and moving together never zoom in |
| Lightbox.MaxOffset | src/app/features/Modal/Modal.tsx:229-233 | never negative, 0 when the scaled image fits, otherwise half of the overhang |
| Lightbox.ConstrainImagePosition | src/app/features/Modal/Modal.tsx:220-239 | each coordinate within ±its bound; in-range positions unchanged; any position unchanged when the image or the container is not mounted |
| Lightbox.ConstrainIdempotent | src/app/features/Modal/Modal.tsx:220-239 | constraining twice is constraining once |
| Lightbox.FittingImageIsCentred | src/app/features/Modal/Modal.tsx:229-238 | an image that fits its container is always centred |
| Lightbox.ZoomToggle | src/app/features/Modal/Modal.tsx:64-104 | at scale 1: scale 2 and an offset of half the vector from the tap to the rect's centre; otherwise scale 1 centred |
| Lightbox.ZoomToggleRoundTrip | src/app/features/Modal/Modal.tsx:64-104 | a tap at the centre zooms without moving the image, and the second toggle always returns to scale 1 centred |
| Lightbox.OverlayOpacity | src/app/features/Modal/Modal.tsx:388-390 | the opacity lies in [0.5, 1] and is 1 exactly when there is no vertical drag |
| Lightbox.OverlayOpacityMonotone | src/app/features/Modal/Modal.tsx:388-390 | a longer drag never makes the overlay more opaque |
| Lightbox.SwipeDecision | src/app/features/Modal/Modal.tsx:317-329 | prev exactly when horizontal (\|dx\| > \|dy\|) with dx > 50 and a previous item; next exactly when horizontal with dx < -50 and a next item; close exactly when not horizontal with \|dy\| > 100; otherwise nothing |
| Lightbox.SwipeDecisionSymmetry | src/app/features/Modal/Modal.tsx:317-329 | swiping the other way asks for the other neighbour, up and down close alike, and a movement within the thresholds does nothing |
| Lightbox.Initial | src/app/features/Modal/Modal.tsx:27-50 | the first render's state satisfies the invariant and shows the initial index |
| Lightbox.Slide | src/app/features/Modal/Modal.tsx:131-147 | reference definition of a successful step: animation on with its direction, index moved by the step, slide timer pending, scale 1 and both offsets at the origin (properties in `SuccessfulStepResetsView`) |
| Lightbox.Prev | src/app/features/Modal/Modal.tsx:130-148 | reference definition of `handlePrev`: a slide right by -1 when `scale === 1 && canGoPrev && !isAnimating`, otherwise no change (properties in `NavigationOnlyWhenAllowed`, `SuccessfulStepResetsView`) |
| Lightbox.Next | src/app/features/Modal/Modal.tsx:151-169 | reference definition of `handleNext`: a slide left by +1 when `scale === 1 && canGoNext && !isAnimating`, otherwise no change (properties in `NavigationOnlyWhenAllowed`, `SuccessfulStepResetsView`) |
| Lightbox.SlideTimerFired | src/app/features/Modal/Modal.tsx:139-142 | reference definition of the slide timer: no direction, no animation, no timer pending (properties in `SuccessfulStepResetsView`, `StepPreserves`) |
| Lightbox.CloseViewer | src/app/features/Modal/Modal.tsx:107-109 | reference definition of `handleClose`: closing set and one more close timer, with no guard against a second close (properties in `DoubleCloseCallsOnCloseTwice`) |
| Lightbox.CloseTimerFired | src/app/features/Modal/Modal.tsx:109-115 | reference definition of the close timer: `onClose` called once more, closing over, scale 1, both offsets at the origin (properties in `DoubleCloseCallsOnCloseTwice`) |
| Lightbox.OverlayClick | src/app/features/Modal/Modal.tsx:119-123 | reference definition of `handleOverlayClick`: a close only when the target is the overlay |
| Lightbox.KeyDown | src/app/features/Modal/Modal.tsx:172-187 | reference definition of the keydown listener: nothing while closed; Escape closes, the arrows call prev/next when the neighbour exists (properties in `ZoomedInBlocksNavigation`) |
| Lightbox.ZoomToggled | src/app/features/Modal/Modal.tsx:64-104 | reference definition of `handleDoubleClick`/`handleDoubleTap`: `ZoomToggle` applied to scale and image position (properties in `ZoomToggle`, `ZoomToggleRoundTrip`) |
| Lightbox.TouchStart | src/app/features/Modal/Modal.tsx:190-217 | reference definition of `handleTouchStart`: two fingers set the pinch flags and its start distance; one finger starts a drag, an image pan exactly when zoomed in, remembering start point, image position and time |
| Lightbox.TouchMove | src/app/features/Modal/Modal.tsx:242-294 | reference definition of `handleTouchMove`: a pinch, an image pan or a swipe drag as the ref flags and finger count say, otherwise no change (properties in `StepPreserves`) |
| Lightbox.Pinched | src/app/features/Modal/Modal.tsx:243-260 | reference definition of a pinch move: `PinchScale`, the image constrained at the new scale, the new reference distance |
| Lightbox.ImagePanned | src/app/features/Modal/Modal.tsx:269-279 | reference definition of panning a zoomed image: start image position plus the finger's movement, constrained |
| Lightbox.Dragged | src/app/features/Modal/Modal.tsx:281-293 | reference definition of a swipe drag: the horizontal lock past 20 px, and at scale 1 the sideways position or the vertical drag offset |
| Lightbox.SwipeOutcome | src/app/features/Modal/Modal.tsx:317-330 | reference definition of what a swipe does: at scale 1 the prev, next, close or nothing `SwipeDecision` picks; zoomed in, nothing (properties in `TouchEndAtScaleOne`) |
| Lightbox.EndDrag | src/app/features/Modal/Modal.tsx:303-334 | reference definition of the drag part of `handleTouchEnd`: flags cleared, the swipe followed, position and drag offset back to 0 (properties in `DragEndReturnsToRest`, `TouchEndAtScaleOne`) |
| Lightbox.TouchEnd | src/app/features/Modal/Modal.tsx:297-361 | reference definition of `handleTouchEnd`: the end of a pinch, or the end of a drag followed by the double-tap check against the render's `lastTapTime` and `scale`, and the tap time recorded (properties in `TouchEndAtScaleOne`, `TouchEndAfterPinch`, `DragEndReturnsToRest`, `DoubleTapAfterSwipeZooms`) |
| Lightbox.Step | src/app/features/Modal/Modal.tsx:107-361 | reference definition of one event of the viewer, each handler or timer applied to the state of a fresh render (properties in `StepPreserves`) |
| Lightbox.Run | src/app/features/Modal/Modal.tsx:107-361 | reference definition of a sequence of events applied in order (properties in `RunPreserves`, `ZoomedInBlocksNavigation`) |
| Lightbox.NavigationOnlyWhenAllowed | src/app/features/Modal/Modal.tsx:126-169 | prev/next change the state exactly when scale is 1, the step is in bounds and no slide runs, and then move by exactly one; zoomed in, they change nothing |
| Lightbox.SuccessfulStepResetsView | src/app/features/Modal/Modal.tsx:130-169 | a successful prev slides right to index - 1 and a successful next slides left to index + 1, each setting the animation and its timer and resetting scale and both offsets; the timer clears direction and animation |
| Lightbox.TouchEndAtScaleOne | src/app/features/Modal/Modal.tsx:303-358 | at scale 1, the end of a drag that is not a double tap navigates, closes or does nothing as the swipe asks, returns position and drag offset to 0, clears the drag flags and records the tap time |
| Lightbox.DragEndReturnsToRest | src/app/features/Modal/Modal.tsx:303-334 | at any scale and any time since the last tap, the end of a drag clears the three drag flags, returns position and drag offset to 0 and records the tap time |
| Lightbox.DoubleTapAfterSwipeZooms | src/app/features/Modal/Modal.tsx:336-360 | at scale 1, a touch end within 300 ms of the last tap ends at scale 2, even after a swipe whose navigation reset the scale to 1; the swipe's navigation still happens |
| Lightbox.TouchEndAfterPinch | src/app/features/Modal/Modal.tsx:298-301 | the end of a pinch only clears the zoom flag: no navigation, no close, no tap recorded |
| Lightbox.DoubleCloseCallsOnCloseTwice | src/app/features/Modal/Modal.tsx:107-116 | two closes in a row schedule two timers, which call `onClose` twice |
| Lightbox.StepPreserves | src/app/features/Modal/Modal.tsx:59-361 | every event keeps the invariant (scale in [1, 5], the slide animation running exactly while its timer is pending, with a direction) and keeps the index on an item |
| Lightbox.RunPreserves | src/app/features/Modal/Modal.tsx:126-169 | opened on an item, the viewer stays on an item and keeps its invariant under any sequence of events |
| Lightbox.ZoomedInBlocksNavigation | src/app/features/Modal/Modal.tsx:130-187 | while zoomed in, no sequence of prev/next presses or arrow keys changes the state |
| Lightbox.Viewer.constructor | src/app/features/Modal/Modal.tsx:27-50 | the first render's state |
| Lightbox.Viewer.SetOpen | src/app/features/Modal/Modal.tsx:9-21 | the host's `isOpen` prop: only the open flag changes, the invariant is kept |
| Lightbox.Viewer.InitialIndexChanged | src/app/features/Modal/Modal.tsx:59-61 | the index follows a new `initialIndex`; nothing else changes |
| Lightbox.Viewer.HandlePrev | src/app/features/Modal/Modal.tsx:130-148 | the new state is `Prev` of the old one, the invariant is kept and so is the index's range |
| Lightbox.Viewer.HandleNext | src/app/features/Modal/Modal.tsx:151-169 | the new state is `Next` of the old one, the invariant is kept and so is the index's range |
| Lightbox.Viewer.SlideTimerFires | src/app/features/Modal/Modal.tsx:139-163 | the slide ends: no direction, no animation, no timer pending |
| Lightbox.Viewer.HandleClose | src/app/features/Modal/Modal.tsx:107-109 | closing starts and one more close timer is pending |
| Lightbox.Viewer.CloseTimerFires | src/app/features/Modal/Modal.tsx:109-115 | `onClose` called once more, closing over, scale 1 and both offsets 0 |
| Lightbox.Viewer.HandleOverlayClick | src/app/features/Modal/Modal.tsx:119-123 | only a click on the overlay itself closes |
| Lightbox.Viewer.HandleKeyDown | src/app/features/Modal/Modal.tsx:172-187 | while open: Escape closes, ArrowLeft/ArrowRight navigate when the neighbour exists; closed, nothing happens |
| Lightbox.Viewer.HandleDoubleClick | src/app/features/Modal/Modal.tsx:64-104 | the zoom toggle applied to scale and image position |
| Lightbox.Viewer.HandleTouchStart | src/app/features/Modal/Modal.tsx:190-217 | two fingers start a pinch from their distance; one finger starts a drag, an image pan when zoomed in, remembering where it started |
| Lightbox.Viewer.HandleTouchMove | src/app/features/Modal/Modal.tsx:242-294 | the pinch, the pan of a zoomed image or the swipe drag, as the gesture flags say |
| Lightbox.Viewer.PinchMove | src/app/features/Modal/Modal.tsx:243-260 | the clamped pinch scale, the image kept within bounds at that scale, the new reference distance |
| Lightbox.Viewer.PanMove | src/app/features/Modal/Modal.tsx:270-279 | the image follows the finger from where it was at touch start, within bounds |
| Lightbox.Viewer.DragMove | src/app/features/Modal/Modal.tsx:282-292 | past 20 px sideways the drag becomes horizontal for good; at scale 1 the content follows sideways or the vertical offset follows |
| Lightbox.Viewer.HandleTouchEnd | src/app/features/Modal/Modal.tsx:297-361 | the end of a pinch, or the end of a drag followed by the double-tap check against the render's scale and the tap's time recorded; the invariant and the index's range kept |
| Lightbox.Viewer.EndTouchDrag | src/app/features/Modal/Modal.tsx:303-334 | the drag flags cleared, the swipe followed, position and drag offset back to 0 |
| Lightbox.Viewer.ClearDragFlags | src/app/features/Modal/Modal.tsx:309-312 | the three drag flags false, the index unchanged |
| Lightbox.Viewer.FollowSwipe | src/app/features/Modal/Modal.tsx:317-329 | at scale 1, the navigation or close the swipe asks for; zoomed in, nothing |
| Lightbox.Viewer.ReturnToRest | src/app/features/Modal/Modal.tsx:332-333 | position and drag offset 0, the index unchanged |
| QuoteForm.InitialFormData | src/app/features/ModalForm/ModalForm.tsx:14-20 | the five fields, all empty |
| QuoteForm.ChangedFormData | src/app/features/ModalForm/ModalForm.tsx:58-74 | a checkbox sets `type` to empty when it already held the value and to the value otherwise; any other input sets the field it names; every other field is unchanged |
| QuoteForm.RenderedChangeKeepsForm | src/app/features/ModalForm/ModalForm.tsx:155-178 | a change the rendered inputs can produce keeps the five fields and leaves `type` empty or one of house/apartment/other |
| QuoteForm.ToggleTwice | src/app/features/ModalForm/ModalForm.tsx:61-66 | clicking the same option twice restores the record exactly when `type` was empty or that option; otherwise `type` ends empty |
| QuoteForm.RenderedChangesKeepForm | src/app/features/ModalForm/ModalForm.tsx:155-178 | from a valid record, any sequence of changes from the rendered inputs keeps the five fields and a valid room type |
| QuoteForm.Form.constructor | src/app/features/ModalForm/ModalForm.tsx:14-25 | every field empty; policy, error and tooltip false |
| QuoteForm.Form.SetOpen | src/app/features/ModalForm/ModalForm.tsx:7-12 | the host's `isOpen` prop: only the open flag changes |
| QuoteForm.Form.HandleChange | src/app/features/ModalForm/ModalForm.tsx:58-74 | the record is updated as `ChangedFormData` says; nothing else changes; a rendered change keeps the record valid |
| QuoteForm.Form.HandlePolicyChange | src/app/features/ModalForm/ModalForm.tsx:77-81 | the new consent value, with neither error nor tooltip shown |
| QuoteForm.Form.HandleSubmit | src/app/features/ModalForm/ModalForm.tsx:84-105 | without consent: error and tooltip shown, one more tooltip timer, no close; with consent: `onClose` called; the record never changes |
| QuoteForm.Form.TooltipTimerFires | src/app/features/ModalForm/ModalForm.tsx:93-95 | the tooltip hidden and nothing else changed; the error stays |
| QuoteForm.Form.HandleKeyDown | src/app/features/ModalForm/ModalForm.tsx:28-48 | Escape calls `onClose` while the form is open; nothing else changes |
| QuoteForm.Form.HandleOverlayClick | src/app/features/ModalForm/ModalForm.tsx:51-55 | only a click on the overlay itself calls `onClose` |
| QuoteForm.Form.CloseButton | src/app/features/ModalForm/ModalForm.tsx:128-135 | the close button calls `onClose` |
| Header.PhoneDigits | src/app/features/Header/Header.tsx:78 | the result is made of ASCII digits only and is no longer than the input |
| Header.PhoneDigitsMembership | src/app/features/Header/Header.tsx:78 | a character is in the result exactly when it is a digit of the input |
| Header.PhoneDigitsAppend | src/app/features/Header/Header.tsx:78 | the strip of a concatenation is the concatenation of the strips, so the digits keep their order |
| Header.PhoneDigitsOfDigits | src/app/features/Header/Header.tsx:78 | a string of digits is left as it is |
| Header.PhoneDigitsIdempotent | src/app/features/Header/Header.tsx:78 | stripping twice is stripping once |
| Header.TelHref | src/app/features/Header/Header.tsx:78 | `tel:` followed by the digits of the phone number and nothing else |
| Header.DefaultTelHref | src/app/features/Header/Header.tsx:21-78 | the default number `+7 (978) 662 37 81` gives `tel:79786623781` |
| Header.SiteHeader.constructor | src/app/features/Header/Header.tsx:20-25 | menu and quote form both closed |
| Header.SiteHeader.ToggleMenu | src/app/features/Header/Header.tsx:28 | the menu flips; the quote form is untouched |
| Header.SiteHeader.CloseMenu | src/app/features/Header/Header.tsx:29 | the menu is closed; the quote form is untouched |
| Header.SiteHeader.OpenQuoteForm | src/app/features/Header/Header.tsx:84 | the quote form is open; the menu is untouched |
| Header.SiteHeader.CloseQuoteForm | src/app/features/Header/Header.tsx:108 | the quote form is closed; the menu is untouched |

## Left out

- **Rendering.** JSX, CSS classes, style objects and transition strings are
  not modelled. This includes `getSizes`, the item heights, `getContentStyle`
  and `getImageStyle`.
- **Constraining at render time.** `getImageStyle` (`Modal.tsx:374`) constrains
  the image position again when it renders. The model keeps only the state.
- **DOM side effects.** The scroll lock on `document.body` and the registration
  of window/document listeners are not modelled. A listener that exists only
  while open is modelled as a check on `isOpen`. `preventDefault`,
  `stopPropagation`, `scrollIntoView` and `console.log` have no effect on the
  state, so they are left out too.
- **Time and measurements.** `setTimeout` delays (300 ms, 3 s) are not
  modelled. Only the order in which timers fire is. `Date.now()`, `Math.hypot`
  finger distances, `getBoundingClientRect` and `offsetWidth` are parameters.
- **Floating point.** Scales, positions and offsets are exact reals, not IEEE
  doubles. Ids are unbounded integers, not JavaScript numbers.
- **File-system errors.** `fs.readdir`/`fs.stat` failures and the routes' 500
  responses are not modelled. Neither are `path.join`, `process.cwd()` or the
  JSON response wrapper.
- **Case folding.** The hand-written filters fold ASCII letters only. That is
  all a non-unicode `/i` pattern over these ASCII extensions needs.
- **The previous-slide image's touch handler** (`Modal.tsx:474-485`). It runs
  before the overlay's `handleTouchEnd` in the same event, and both read the
  same render's `lastTapTime` and `scale`. The model has `handleDoubleTap`'s own
  effect (`HandleDoubleClick`), but not that inline handler or how it combines
  with the overlay's handler.
- **Gallery and viewer are separate.** GallerySection passes props to `Modal`
  that Modal.tsx does not declare, so the two are modelled separately and not
  composed.
- **Gallery.TransformOffset: requires `visibleItems != 0`.** The source would
  divide by zero, putting `Infinity` or `NaN` into the CSS string. Every tier
  count the site passes is non-zero.
- **Gallery.Carousel.HandleImageClick: requires what its only call site
  passes.** That is an item's own image and its index (`GallerySection.tsx:145`).
- **QuoteForm.Form.HandleSubmit: runs only after the browser's own
  validation.** The `area`, `name`, `email` and `phone` inputs are `required`,
  and `email` has type `email` (`ModalForm.tsx:190-231`). While one of them is
  empty or the e-mail is malformed, the browser never fires `onSubmit`. The
  model is the handler as it runs once called; it does not model that gate.
- **QuoteForm.Form.HandleChange: validity is conditional.** It promises a
  valid record only for changes the rendered inputs can produce. An input
  named `type` that is not a checkbox could write any value.
- **Files not in this model:**
  - `src/app/api/send-email/route.ts` (SMTP network I/O);
  - `src/lib/articles.ts` and `src/lib/markdown.ts` (file system, front-matter
    and markdown libraries);
  - `FancyboxGlobalProvider.tsx` (a third-party lightbox);
  - `SideMenu.tsx` (listener effects; its phone strip is `Header.PhoneDigits`);
  - the portfolio page (Unicode upper-casing and rendering);
  - the static components and the `next.config.*` files.
