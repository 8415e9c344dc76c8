/** The gallery lightbox of script.js: an overlay that shows one image of the
    gallery at a time, opened on a gallery item, closed by its close button, by
    a click on the backdrop or by Escape, and stepped with wrap-around by its
    arrow buttons and the arrow keys. Its state is the index of the shown
    image and whether the overlay carries the `active` class. */
module Lightbox {

  /** One entry of the `images` table. */
  datatype Image = Image(src: string, alt: string, title: string, description: string)

  /** The `images` table of the page. */
  const Gallery: seq<Image> := [
    Image("gallery-4.jpg", "Beach Sunset", "Beach Sunset", "Peaceful moment by the ocean"),
    Image("gallery-5.jpg", "Personal Photo", "Behind the Scenes", "Capturing the moment")
  ]

  /** The caption text `updateLightboxImage` writes. */
  function Caption(image: Image): string {
    image.title + " - " + image.description
  }

  /** `showNextImage`'s index formula `(i + 1) % n`. Both operands are
      non-negative, so JavaScript's truncating `%` agrees with Dafny's. */
  function NextIndex(i: int, count: int): (j: int)
    requires 0 <= i < count
    ensures 0 <= j < count
    ensures j == if i == count - 1 then 0 else i + 1
  {
    (i + 1) % count
  }

  /** `showPrevImage`'s index formula `(i - 1 + n) % n`; again both operands are
      non-negative. */
  function PrevIndex(i: int, count: int): (j: int)
    requires 0 <= i < count
    ensures 0 <= j < count
    ensures j == if i == 0 then count - 1 else i - 1
  {
    (i - 1 + count) % count
  }

  /** Previous undoes next, and next undoes previous. */
  lemma PrevNextInverse(i: int, count: int)
    requires 0 <= i < count
    ensures PrevIndex(NextIndex(i, count), count) == i
    ensures NextIndex(PrevIndex(i, count), count) == i
  {
  }

  /** `k` presses of "next". */
  function NextTimes(i: int, count: int, k: nat): (j: int)
    requires 0 <= i < count
    ensures 0 <= j < count
    decreases k
  {
    if k == 0 then i else NextIndex(NextTimes(i, count, k - 1), count)
  }

  /** Up to a full round, `k` presses of "next" rotate the index by `k` places,
      wrapping past the last image. */
  lemma {:induction false} NextTimesRotates(i: int, count: int, k: nat)
    requires 0 <= i < count && k <= count
    ensures NextTimes(i, count, k) == if i + k < count then i + k else i + k - count
    decreases k
  {
    if k > 0 {
      NextTimesRotates(i, count, k - 1);
    }
  }

  /** Pressing "next" once per image brings the lightbox back to where it started. */
  lemma FullCycle(i: int, count: int)
    requires 0 <= i < count
    ensures NextTimes(i, count, count) == i
  {
    NextTimesRotates(i, count, count);
  }

  /** What a key press asks of the lightbox. */
  datatype Command = Dismiss | Back | Forward | Ignore

  /** The keydown handler's dispatch: nothing while the overlay is closed;
      otherwise Escape closes, the left and right arrows step, and any other key
      is ignored. */
  function KeyCommand(open: bool, key: string): (c: Command)
    ensures !open ==> c == Ignore
    ensures open ==> (c == Dismiss <==> key == "Escape")
    ensures open ==> (c == Back <==> key == "ArrowLeft")
    ensures open ==> (c == Forward <==> key == "ArrowRight")
  {
    if !open then Ignore
    else if key == "Escape" then Dismiss
    else if key == "ArrowLeft" then Back
    else if key == "ArrowRight" then Forward
    else Ignore
  }

  /** The lightbox's navigation state: shown index and whether it is open. */
  datatype View = View(index: int, open: bool)

  /** The effect of one key press on the navigation state. */
  function Press(v: View, key: string, count: int): (w: View)
    requires 0 <= v.index < count
    ensures 0 <= w.index < count
    ensures !v.open ==> w == v
    ensures w.open <==> v.open && key != "Escape"
    ensures key == "Escape" ==> w.index == v.index
    // while open, Escape only closes, and the arrows step with wrap-around
    ensures v.open && key == "Escape" ==> w == v.(open := false)
    ensures v.open && key == "ArrowLeft" ==> w == v.(index := PrevIndex(v.index, count))
    ensures v.open && key == "ArrowRight" ==> w == v.(index := NextIndex(v.index, count))
    // any other key leaves the view as it was
    ensures KeyCommand(v.open, key) == Ignore ==> w == v
  {
    match KeyCommand(v.open, key)
    case Dismiss => v.(open := false)
    case Back => v.(index := PrevIndex(v.index, count))
    case Forward => v.(index := NextIndex(v.index, count))
    case Ignore => v
  }

  /** With the lightbox open, ArrowLeft undoes ArrowRight and ArrowRight undoes
      ArrowLeft. */
  lemma ArrowKeysUndoEachOther(v: View, count: int)
    requires 0 <= v.index < count && v.open
    ensures Press(Press(v, "ArrowRight", count), "ArrowLeft", count) == v
    ensures Press(Press(v, "ArrowLeft", count), "ArrowRight", count) == v
  {
    PrevNextInverse(v.index, count);
  }

  /** The overlay, with the page state the source's functions write. */
  class Lightbox {
    const images: seq<Image>
    /** `currentImageIndex` */
    var currentImageIndex: int
    /** the overlay's `active` class */
    var active: bool
    /** `document.body.style.overflow == 'hidden'` */
    var scrollLocked: bool
    /** the overlay image's `src` and `alt`, and the caption's text */
    var imageSrc: string
    var imageAlt: string
    var caption: string

    predicate Valid()
      reads this
    {
      0 <= currentImageIndex < |images|
    }

    /** The overlay shows the current image. */
    predicate Showing()
      reads this
      requires Valid()
    {
      var image := images[currentImageIndex];
      imageSrc == image.src && imageAlt == image.alt && caption == Caption(image)
    }

    function ViewOf(): View
      reads this
    {
      View(currentImageIndex, active)
    }

    /** The page's lightbox over its `images` table, closed at the first image. */
    constructor ()
      ensures images == Gallery && Valid()
      ensures currentImageIndex == 0 && !active && !scrollLocked
    {
      images := Gallery;
      currentImageIndex := 0;
      active := false;
      scrollLocked := false;
      imageSrc, imageAlt, caption := "", "", "";
    }

    /** `updateLightboxImage` */
    method Render()
      requires Valid()
      modifies this`imageSrc, this`imageAlt, this`caption
      ensures Showing()
    {
      var image := images[currentImageIndex];
      imageSrc := image.src;
      imageAlt := image.alt;
      caption := Caption(image);
    }

    /** `openLightbox`; a gallery item past the end of `images` is not modelled. */
    method Open(index: int)
      requires 0 <= index < |images|
      modifies this
      ensures Valid() && Showing()
      ensures currentImageIndex == index && active && scrollLocked
    {
      currentImageIndex := index;
      Render();
      active := true;
      scrollLocked := true;
    }

    /** `closeLightbox` */
    method Close()
      modifies this`active, this`scrollLocked
      ensures !active && !scrollLocked
    {
      active := false;
      scrollLocked := false;
    }

    /** `showPrevImage` */
    method ShowPrev()
      requires Valid()
      modifies this`currentImageIndex, this`imageSrc, this`imageAlt, this`caption
      ensures Valid() && Showing()
      ensures currentImageIndex == PrevIndex(old(currentImageIndex), |images|)
    {
      currentImageIndex := (currentImageIndex - 1 + |images|) % |images|;
      Render();
    }

    /** `showNextImage` */
    method ShowNext()
      requires Valid()
      modifies this`currentImageIndex, this`imageSrc, this`imageAlt, this`caption
      ensures Valid() && Showing()
      ensures currentImageIndex == NextIndex(old(currentImageIndex), |images|)
    {
      currentImageIndex := (currentImageIndex + 1) % |images|;
      Render();
    }

    /** The document's keydown listener. */
    method OnKeyDown(key: string)
      requires Valid()
      modifies this
      ensures Valid()
      ensures ViewOf() == Press(old(ViewOf()), key, |images|)
      ensures KeyCommand(old(active), key) == Ignore ==> unchanged(this)
      ensures KeyCommand(old(active), key) == Dismiss ==> !scrollLocked
      // Escape leaves the shown image as it was; the arrows show the new one
      ensures KeyCommand(old(active), key) == Dismiss ==>
        imageSrc == old(imageSrc) && imageAlt == old(imageAlt) && caption == old(caption)
      ensures KeyCommand(old(active), key) == Back || KeyCommand(old(active), key) == Forward ==> Showing()
      // only Escape touches the page's scroll lock
      ensures KeyCommand(old(active), key) != Dismiss ==> scrollLocked == old(scrollLocked)
    {
      if !active {
        return;
      }
      match KeyCommand(active, key)
      case Dismiss => Close();
      case Back => ShowPrev();
      case Forward => ShowNext();
      case Ignore =>
    }

    /** The overlay's click listener: only a click on the backdrop itself, not on
        the image or a control inside it, closes the lightbox. */
    method OnOverlayClick(targetIsOverlay: bool)
      modifies this`active, this`scrollLocked
      ensures targetIsOverlay ==> !active && !scrollLocked
      ensures !targetIsOverlay ==> unchanged(this)
    {
      if targetIsOverlay {
        Close();
      }
    }
  }
}
