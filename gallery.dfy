/** The carousel of src/app/features/Gallery/GallerySection.tsx: a strip
    showing `visibleItems` items from the left-most `currentIndex`, chosen
    per viewport tier, and the selected image the component hands to its
    lightbox. */
module Gallery {
  import opened Media

  const DefaultVisibleItems := 4
  const TabletVisibleItems := 3
  const MobileVisibleItems := 1
  const DefaultGapPercent: real := 2.0

  /** The upper widths of the mobile and tablet tiers, in pixels. */
  const MobileMaxWidth := 768
  const TabletMaxWidth := 1023

  /** `handleResize`: the visible count for a viewport width. */
  function VisibleItemsFor(width: int, mobile: int, tablet: int, default: int): (r: int)
    ensures width <= MobileMaxWidth ==> r == mobile
    ensures MobileMaxWidth < width <= TabletMaxWidth ==> r == tablet
    ensures TabletMaxWidth < width ==> r == default
  {
    if width <= MobileMaxWidth then mobile
    else if width <= TabletMaxWidth then tablet
    else default
  }

  /** `canGoLeft` */
  predicate CanGoLeft(currentIndex: int) {
    currentIndex > 0
  }

  /** `canGoRight` */
  predicate CanGoRight(currentIndex: int, itemCount: int, visibleItems: int) {
    currentIndex < itemCount - visibleItems
  }

  /** The largest left-most index the strip can reach from 0. */
  function LastStart(itemCount: int, visibleItems: int): int {
    if itemCount - visibleItems > 0 then itemCount - visibleItems else 0
  }

  /** The index after `goLeft`. */
  function StepLeft(currentIndex: int): int {
    if CanGoLeft(currentIndex) then currentIndex - 1 else currentIndex
  }

  /** The index after `goRight`. */
  function StepRight(currentIndex: int, itemCount: int, visibleItems: int): int {
    if CanGoRight(currentIndex, itemCount, visibleItems) then currentIndex + 1 else currentIndex
  }

  /** The button presses of the strip. */
  datatype Move = Left | Right

  /** The left-most index after a sequence of presses. */
  function StripAfter(currentIndex: int, itemCount: int, visibleItems: int, moves: seq<Move>): int
    decreases |moves|
  {
    if moves == [] then currentIndex
    else
      var next := match moves[0]
        case Left => StepLeft(currentIndex)
        case Right => StepRight(currentIndex, itemCount, visibleItems);
      StripAfter(next, itemCount, visibleItems, moves[1..])
  }

  /** A press moves the strip by exactly one place when its guard holds,
      and otherwise leaves it where it is. */
  lemma StepsMoveByOne(currentIndex: int, itemCount: int, visibleItems: int)
    ensures currentIndex == 0 ==> StepLeft(currentIndex) == currentIndex
    ensures currentIndex > 0 ==> StepLeft(currentIndex) == currentIndex - 1
    ensures currentIndex >= itemCount - visibleItems ==>
      StepRight(currentIndex, itemCount, visibleItems) == currentIndex
    ensures currentIndex < itemCount - visibleItems ==>
      StepRight(currentIndex, itemCount, visibleItems) == currentIndex + 1
  {
  }

  /** With `visibleItems` fixed, the strip never leaves
      [0, max(0, itemCount - visibleItems)], whatever is pressed. */
  lemma {:induction false} StripStaysInRange(currentIndex: int, itemCount: int, visibleItems: int, moves: seq<Move>)
    requires 0 <= currentIndex <= LastStart(itemCount, visibleItems)
    ensures 0 <= StripAfter(currentIndex, itemCount, visibleItems, moves) <= LastStart(itemCount, visibleItems)
    decreases |moves|
  {
    if moves != [] {
      var next := match moves[0]
        case Left => StepLeft(currentIndex)
        case Right => StepRight(currentIndex, itemCount, visibleItems);
      StripStaysInRange(next, itemCount, visibleItems, moves[1..]);
    }
  }

  /** When every item fits, both guards are false at 0 and the strip
      never moves. */
  lemma {:induction false} StripFrozenWhenAllVisible(itemCount: int, visibleItems: int, moves: seq<Move>)
    requires itemCount <= visibleItems
    ensures StripAfter(0, itemCount, visibleItems, moves) == 0
    decreases |moves|
  {
    if moves != [] {
      StripFrozenWhenAllVisible(itemCount, visibleItems, moves[1..]);
    }
  }

  /** The offset, in percent, behind `getTransform`'s
      `translateX(-offset%)`: each step moves one item width plus its
      share of the gap. */
  function TransformOffset(currentIndex: int, visibleItems: int, gapPercent: real): (r: real)
    requires visibleItems != 0
    ensures r == currentIndex as real * (100.0 + gapPercent) / visibleItems as real
  {
    var itemWidthPercent := 100.0 / visibleItems as real;
    var itemWithGap := itemWidthPercent + gapPercent / visibleItems as real;
    currentIndex as real * itemWithGap
  }

  /** The offset is 0 at the first item, grows strictly with the index,
      and a full page of `visibleItems` steps moves by 100% plus the gap. */
  lemma TransformOffsetShape(i: int, j: int, visibleItems: int, gapPercent: real)
    requires visibleItems > 0 && gapPercent > -100.0
    ensures TransformOffset(0, visibleItems, gapPercent) == 0.0
    ensures i < j ==> TransformOffset(i, visibleItems, gapPercent) < TransformOffset(j, visibleItems, gapPercent)
    ensures TransformOffset(i + visibleItems, visibleItems, gapPercent) ==
      TransformOffset(i, visibleItems, gapPercent) + 100.0 + gapPercent
  {
    var step := (100.0 + gapPercent) / visibleItems as real;
    assert step > 0.0;
    assert TransformOffset(i, visibleItems, gapPercent) == i as real * step;
    assert TransformOffset(j, visibleItems, gapPercent) == j as real * step;
    if i < j {
      assert (j - i) as real * step > 0.0;
      assert j as real * step == i as real * step + (j - i) as real * step;
    }
    assert (i + visibleItems) as real * step == i as real * step + visibleItems as real * step;
    assert visibleItems as real * step == 100.0 + gapPercent;
  }

  /** The index after `handlePrevImage`. */
  function SelectPrev(selectedIndex: int): int {
    if selectedIndex > 0 then selectedIndex - 1 else selectedIndex
  }

  /** The index after `handleNextImage`. */
  function SelectNext(selectedIndex: int, itemCount: int): int {
    if selectedIndex < itemCount - 1 then selectedIndex + 1 else selectedIndex
  }

  /** The selected index after a sequence of lightbox prev/next calls. */
  function SelectionAfter(selectedIndex: int, itemCount: int, moves: seq<Move>): int
    decreases |moves|
  {
    if moves == [] then selectedIndex
    else
      var next := match moves[0]
        case Left => SelectPrev(selectedIndex)
        case Right => SelectNext(selectedIndex, itemCount);
      SelectionAfter(next, itemCount, moves[1..])
  }

  /** After a click on an item, any sequence of prev/next keeps the
      selected index on an item. */
  lemma {:induction false} SelectionStaysOnItems(selectedIndex: int, itemCount: int, moves: seq<Move>)
    requires 0 <= selectedIndex < itemCount
    ensures 0 <= SelectionAfter(selectedIndex, itemCount, moves) < itemCount
    decreases |moves|
  {
    if moves != [] {
      var next := match moves[0]
        case Left => SelectPrev(selectedIndex)
        case Right => SelectNext(selectedIndex, itemCount);
      SelectionStaysOnItems(next, itemCount, moves[1..]);
    }
  }

  /** `k` presses of next from `i` with no boundary reached land on `i + k`. */
  lemma {:induction false} SelectionNextCount(selectedIndex: int, itemCount: int, k: nat)
    requires selectedIndex + k < itemCount
    ensures SelectionAfter(selectedIndex, itemCount, seq(k, _ => Right)) == selectedIndex + k
    decreases k
  {
    if k > 0 {
      assert seq(k, _ => Right)[1..] == seq(k - 1, _ => Right);
      SelectionNextCount(selectedIndex + 1, itemCount, k - 1);
    }
  }

  /** The component's state. `items` and the tier counts are its props. */
  class Carousel {
    const items: seq<Item>
    const defaultVisibleItems: int
    const tabletVisibleItems: int
    const mobileVisibleItems: int
    const gapPercent: real

    var currentIndex: int
    var visibleItems: int
    var selectedImage: Option<string>
    var selectedImageIndex: int

    /** The selected index always names an item, except the initial 0 of
        an empty gallery. */
    ghost predicate Valid()
      reads this
    {
      0 <= selectedImageIndex && (selectedImageIndex == 0 || selectedImageIndex < |items|)
    }

    /** The strip's left-most index lies in its reachable range. */
    ghost predicate StripInRange()
      reads this
    {
      0 <= currentIndex <= LastStart(|items|, visibleItems)
    }

    /** The lightbox shows the selected item's image. */
    ghost predicate SelectionShown()
      reads this
    {
      0 <= selectedImageIndex < |items| && selectedImage == Some(items[selectedImageIndex].image)
    }

    /** The state of the first render. */
    constructor (items: seq<Item>, defaultVisibleItems: int, tabletVisibleItems: int,
                 mobileVisibleItems: int, gapPercent: real)
      ensures Valid() && StripInRange()
      ensures this.items == items && this.gapPercent == gapPercent
      ensures this.defaultVisibleItems == defaultVisibleItems
      ensures this.tabletVisibleItems == tabletVisibleItems
      ensures this.mobileVisibleItems == mobileVisibleItems
      ensures currentIndex == 0 && visibleItems == defaultVisibleItems
      ensures selectedImage == None && selectedImageIndex == 0
    {
      this.items := items;
      this.defaultVisibleItems := defaultVisibleItems;
      this.tabletVisibleItems := tabletVisibleItems;
      this.mobileVisibleItems := mobileVisibleItems;
      this.gapPercent := gapPercent;
      currentIndex := 0;
      visibleItems := defaultVisibleItems;
      selectedImage := None;
      selectedImageIndex := 0;
    }

    /** `handleResize`, run on mount and on every resize. It sets the
        count only: the index is not reset. */
    method HandleResize(width: int)
      requires Valid()
      modifies this
      ensures Valid()
      ensures visibleItems == VisibleItemsFor(width, mobileVisibleItems, tabletVisibleItems, defaultVisibleItems)
      ensures currentIndex == old(currentIndex)
      ensures selectedImage == old(selectedImage) && selectedImageIndex == old(selectedImageIndex)
    {
      visibleItems := VisibleItemsFor(width, mobileVisibleItems, tabletVisibleItems, defaultVisibleItems);
    }

    /** `goLeft` */
    method GoLeft()
      requires Valid()
      modifies this
      ensures Valid()
      ensures currentIndex == StepLeft(old(currentIndex))
      ensures old(StripInRange()) ==> StripInRange()
      ensures visibleItems == old(visibleItems)
      ensures selectedImage == old(selectedImage) && selectedImageIndex == old(selectedImageIndex)
    {
      if CanGoLeft(currentIndex) {
        currentIndex := currentIndex - 1;
      }
    }

    /** `goRight` */
    method GoRight()
      requires Valid()
      modifies this
      ensures Valid()
      ensures currentIndex == StepRight(old(currentIndex), |items|, old(visibleItems))
      ensures old(StripInRange()) ==> StripInRange()
      ensures visibleItems == old(visibleItems)
      ensures selectedImage == old(selectedImage) && selectedImageIndex == old(selectedImageIndex)
    {
      if CanGoRight(currentIndex, |items|, visibleItems) {
        currentIndex := currentIndex + 1;
      }
    }

    /** `getTransform`'s offset for the current state. */
    function Transform(): (r: real)
      reads this
      requires visibleItems != 0
    {
      TransformOffset(currentIndex, visibleItems, gapPercent)
    }

    /** `handleImageClick(item.image, index)`, as the item list calls it. */
    method HandleImageClick(image: string, index: int)
      requires Valid()
      requires 0 <= index < |items| && image == items[index].image
      modifies this
      ensures Valid() && SelectionShown()
      ensures selectedImage == Some(image) && selectedImageIndex == index
      ensures currentIndex == old(currentIndex) && visibleItems == old(visibleItems)
    {
      selectedImage := Some(image);
      selectedImageIndex := index;
    }

    /** `handlePrevImage` */
    method HandlePrevImage()
      requires Valid()
      modifies this
      ensures Valid()
      ensures selectedImageIndex == SelectPrev(old(selectedImageIndex))
      ensures old(selectedImageIndex) == 0 ==> selectedImage == old(selectedImage)
      ensures old(selectedImageIndex) > 0 ==> SelectionShown()
      ensures old(SelectionShown()) ==> SelectionShown()
      ensures currentIndex == old(currentIndex) && visibleItems == old(visibleItems)
    {
      if selectedImageIndex > 0 {
        var newIndex := selectedImageIndex - 1;
        selectedImageIndex := newIndex;
        selectedImage := Some(items[newIndex].image);
      }
    }

    /** `handleNextImage` */
    method HandleNextImage()
      requires Valid()
      modifies this
      ensures Valid()
      ensures selectedImageIndex == SelectNext(old(selectedImageIndex), |items|)
      ensures old(selectedImageIndex) >= |items| - 1 ==> selectedImage == old(selectedImage)
      ensures old(selectedImageIndex) < |items| - 1 ==> SelectionShown()
      ensures old(SelectionShown()) ==> SelectionShown()
      ensures currentIndex == old(currentIndex) && visibleItems == old(visibleItems)
    {
      if selectedImageIndex < |items| - 1 {
        var newIndex := selectedImageIndex + 1;
        selectedImageIndex := newIndex;
        selectedImage := Some(items[newIndex].image);
      }
    }

    /** The lightbox's `onClose`: `setSelectedImage(null)`. */
    method CloseLightbox()
      requires Valid()
      modifies this
      ensures Valid()
      ensures selectedImage == None && selectedImageIndex == old(selectedImageIndex)
      ensures currentIndex == old(currentIndex) && visibleItems == old(visibleItems)
    {
      selectedImage := None;
    }
  }

  /** The carousel of five items showing four: it can step right at 0
      but not at 1, and stepping back returns to 0. */
  method FiveItemsFourVisible(items: seq<Item>)
    requires |items| == 5
  {
    var c := new Carousel(items, 4, 3, 1, DefaultGapPercent);
    c.HandleResize(1200);
    assert c.visibleItems == 4;
    assert CanGoRight(0, 5, 4);
    c.GoRight();
    assert c.currentIndex == 1 && !CanGoRight(1, 5, 4);
    c.GoRight();
    assert c.currentIndex == 1;
    c.GoLeft();
    c.GoLeft();
    assert c.currentIndex == 0;
  }
}
