/** The image carousel of a project page (app/components/ProjectGallery.tsx): the
    active and displayed indices, the transition guard, the set of broken images, the
    next/previous wrap-around and the duplicated track of the mobile layout. The two
    nested `setTimeout` callbacks are the explicit step `FireTimer`. */
module ProjectGallery {
  import opened Wrappers
  import opened Decimal

  // ---------------------------------------------------------------------------
  // Index arithmetic

  /** `(activeImage + 1) % images.length`. */
  function NextIndex(active: nat, count: nat): (r: nat)
    requires active < count
    ensures r < count
    ensures r == if active == count - 1 then 0 else active + 1
  {
    (active + 1) % count
  }

  /** `(activeImage - 1 + images.length) % images.length`; the dividend is never
      negative, so JavaScript's `%` and Dafny's agree. */
  function PrevIndex(active: nat, count: nat): (r: nat)
    requires active < count
    ensures r < count
    ensures r == if active == 0 then count - 1 else active - 1
  {
    (active - 1 + count) % count
  }

  /** Previous undoes next and next undoes previous. */
  lemma PrevUndoesNext(active: nat, count: nat)
    requires active < count
    ensures PrevIndex(NextIndex(active, count), count) == active
    ensures NextIndex(PrevIndex(active, count), count) == active
  {
  }

  // ---------------------------------------------------------------------------
  // The carousel state

  /** The timeout that `handleImageChange` has scheduled and that has not fired yet:
      first the 300 ms one that shows the new image, then the 50 ms one that ends the
      transition. */
  datatype Timer = NoTimer | ShowPending(index: nat) | ReleasePending

  class Gallery {
    const images: seq<string>
    var imageErrors: set<int>
    var activeImage: nat
    var isTransitioning: bool
    var displayedImage: nat
    var timer: Timer

    /** An index the component can hold: one of the images, or 0 for an empty list. */
    predicate InRange(i: nat) {
      i < |images| || i == 0
    }

    ghost predicate Valid()
      reads this
    {
      && InRange(activeImage)
      && InRange(displayedImage)
      && (isTransitioning <==> timer != NoTimer)
      && (timer.ShowPending? ==> timer.index == activeImage)
      && (!timer.ShowPending? ==> displayedImage == activeImage)
    }

    constructor (images: seq<string>)
      ensures Valid()
      ensures this.images == images && imageErrors == {}
      ensures activeImage == 0 && displayedImage == 0
      ensures !isTransitioning && timer == NoTimer
    {
      this.images := images;
      imageErrors := {};
      activeImage := 0;
      isTransitioning := false;
      displayedImage := 0;
      timer := NoTimer;
    }

    /** `handleImageError`: the index joins the error set; earlier indices stay, and
        recording an index already there changes nothing. */
    method HandleImageError(index: int)
      requires Valid()
      modifies this`imageErrors
      ensures Valid()
      ensures imageErrors == old(imageErrors) + {index}
      ensures old(imageErrors) <= imageErrors
      ensures index in old(imageErrors) ==> imageErrors == old(imageErrors)
    {
      imageErrors := imageErrors + {index};
    }

    /** `handleImageChange`: ignored for the active index or during a transition;
        otherwise the index becomes active at once, the transition starts and the
        displayed image stays the old one until the first timer fires. */
    method HandleImageChange(index: nat)
      requires Valid()
      requires index < |images|
      modifies this`activeImage, this`isTransitioning, this`timer
      ensures Valid()
      ensures old(index == activeImage || isTransitioning) ==>
        activeImage == old(activeImage) && isTransitioning == old(isTransitioning)
        && timer == old(timer)
      ensures !old(index == activeImage || isTransitioning) ==>
        activeImage == index && isTransitioning && timer == ShowPending(index)
    {
      if index == activeImage || isTransitioning {
        return;
      }
      isTransitioning := true;
      activeImage := index;
      timer := ShowPending(index);
    }

    /** The pending timeout fires: the first shows the image it was scheduled for and
        schedules the second; the second ends the transition. Nothing pending, nothing
        happens. */
    method FireTimer()
      requires Valid()
      modifies this`displayedImage, this`isTransitioning, this`timer
      ensures Valid()
      ensures old(timer) == NoTimer ==>
        displayedImage == old(displayedImage) && !isTransitioning && timer == NoTimer
      ensures old(timer).ShowPending? ==>
        displayedImage == old(timer).index && isTransitioning && timer == ReleasePending
      ensures old(timer) == ReleasePending ==>
        displayedImage == old(displayedImage) && !isTransitioning && timer == NoTimer
    {
      match timer
      case NoTimer =>
      case ShowPending(i) =>
        displayedImage := i;
        timer := ReleasePending;
      case ReleasePending =>
        isTransitioning := false;
        timer := NoTimer;
    }

    /** `goToNext`; the arrows exist only when there is more than one image. */
    method GoToNext()
      requires Valid() && ShowsControls(|images|)
      modifies this`activeImage, this`isTransitioning, this`timer
      ensures Valid()
      ensures !old(isTransitioning) ==>
        activeImage == NextIndex(old(activeImage), |images|) && isTransitioning
      ensures old(isTransitioning) ==>
        activeImage == old(activeImage) && timer == old(timer)
    {
      HandleImageChange(NextIndex(activeImage, |images|));
    }

    /** `goToPrev`. */
    method GoToPrev()
      requires Valid() && ShowsControls(|images|)
      modifies this`activeImage, this`isTransitioning, this`timer
      ensures Valid()
      ensures !old(isTransitioning) ==>
        activeImage == PrevIndex(old(activeImage), |images|) && isTransitioning
      ensures old(isTransitioning) ==>
        activeImage == old(activeImage) && timer == old(timer)
    {
      HandleImageChange(PrevIndex(activeImage, |images|));
    }

    /** A change accepted while idle, followed by both timeouts, ends with the new image
        active and displayed and no transition in progress. */
    method ChangeAndSettle(index: nat)
      requires Valid() && !isTransitioning && index < |images|
      modifies this`activeImage, this`isTransitioning, this`timer, this`displayedImage
      ensures Valid()
      ensures activeImage == index && displayedImage == index && !isTransitioning
      ensures timer == NoTimer
    {
      HandleImageChange(index);
      FireTimer();
      FireTimer();
    }
  }

  // ---------------------------------------------------------------------------
  // What the web layout shows

  /** The counter "k / n": shown only for more than one image, k = activeImage + 1. */
  function Counter(active: nat, count: nat): (r: Option<(nat, nat)>)
    requires active < count || active == 0
    ensures r.Some? <==> count > 1
    ensures r.Some? ==> 1 <= r.value.0 <= r.value.1 == count
    ensures r.Some? ==> r.value.0 - 1 == active
  {
    if count > 1 then Some((active + 1, count)) else None
  }

  /** `images.length > 1`: the guard on the arrows, the counter and the thumbnail strip. */
  predicate ShowsControls(count: nat) {
    count > 1
  }

  /** The arrows and thumbnails appear exactly when the counter does, and whenever
      they appear, next and previous each move to a different image. */
  lemma ControlsMatchCounter(active: nat, count: nat)
    requires active < count
    ensures ShowsControls(count) <==> Counter(active, count).Some?
    ensures ShowsControls(count) ==>
      NextIndex(active, count) != active && PrevIndex(active, count) != active
  {
  }

  /** The main picture: a placeholder when the displayed image failed to load. */
  datatype MainView = Picture(src: string) | Placeholder(index: nat)

  function MainImage(images: seq<string>, errors: set<int>, displayed: nat): (v: MainView)
    requires displayed < |images|
    ensures v.Placeholder? <==> displayed in errors
    ensures v.Placeholder? ==> v.index == displayed
    ensures v.Picture? ==> v.src == images[displayed]
  {
    if displayed in errors then Placeholder(displayed) else Picture(images[displayed])
  }

  // ---------------------------------------------------------------------------
  // Mobile layout

  /** One phone mockup: its React key, its image and whether it shows the placeholder. */
  datatype Mockup = Mockup(key: string, src: string, index: nat, placeholder: bool)

  /** Auto-scroll is on for four images or more. */
  predicate ShouldAutoScroll(count: nat) {
    count >= 4
  }

  function Mockups(images: seq<string>, errors: set<int>, prefix: string): (r: seq<Mockup>)
    ensures |r| == |images|
    ensures forall i :: 0 <= i < |r| ==>
      r[i] == Mockup(prefix + NatToString(i), images[i], i, i in errors)
  {
    seq(|images|, i requires 0 <= i < |images| =>
      Mockup(prefix + NatToString(i), images[i], i, i in errors))
  }

  /** The mobile layout: with auto-scroll, the images twice (keys `first-i`, then
      `second-i`) so the loop is seamless; otherwise once (keys `static-i`). */
  function MobileTrack(images: seq<string>, errors: set<int>): seq<Mockup> {
    if ShouldAutoScroll(|images|) then
      Mockups(images, errors, "first-") + Mockups(images, errors, "second-")
    else
      Mockups(images, errors, "static-")
  }

  lemma KeyPrefixInjective(prefix: string, m: nat, n: nat)
    requires prefix + NatToString(m) == prefix + NatToString(n)
    ensures m == n
  {
    assert (prefix + NatToString(m))[|prefix|..] == NatToString(m);
    assert (prefix + NatToString(n))[|prefix|..] == NatToString(n);
    NatToStringInjective(m, n);
  }

  /** The track has 2n mockups with auto-scroll and n without; the second half repeats
      the first; and no two mockups share a key. */
  lemma MobileTrackCorrect(images: seq<string>, errors: set<int>)
    ensures var t := MobileTrack(images, errors);
      |t| == (if |images| >= 4 then 2 * |images| else |images|)
    ensures var t := MobileTrack(images, errors);
      forall i :: 0 <= i < |images| ==> t[i].src == images[i] && t[i].index == i
    ensures var t := MobileTrack(images, errors);
      |images| >= 4 ==> forall i :: 0 <= i < |images| ==>
        t[i + |images|].src == images[i] && t[i + |images|].index == i
    ensures var t := MobileTrack(images, errors);
      forall i, j :: 0 <= i < j < |t| ==> t[i].key != t[j].key
  {
    var t := MobileTrack(images, errors);
    var n := |images|;
    forall i, j | 0 <= i < j < |t| ensures t[i].key != t[j].key {
      if n >= 4 {
        if j < n {
          if t[i].key == t[j].key { KeyPrefixInjective("first-", i, j); }
        } else if i >= n {
          if t[i].key == t[j].key { KeyPrefixInjective("second-", i - n, j - n); }
        } else {
          assert t[i].key[1] == 'i' && t[j].key[1] == 'e';
        }
      } else {
        if t[i].key == t[j].key { KeyPrefixInjective("static-", i, j); }
      }
    }
  }
}
