/** The pile of cookie images on the checkout screen: one centred image that is
    never removed, plus one randomly placed image per item added. */
module ImageStack {

  /** An image view: its centre as multiples of the container's centre, and
      its scale. The values are chosen by the caller. */
  datatype ImageView = ImageView(centerX: real, centerY: real, scale: real)

  /** The image every view starts with: centred, at full size. */
  const CenteredImage := ImageView(1.0, 1.0, 1.0)

  /** The guarded removal: drops the last image unless it is the only one. */
  function RemoveLast(views: seq<ImageView>): seq<ImageView>
  {
    if |views| > 1 then views[..|views| - 1] else views
  }

  /** The images left after `k` guarded removals. */
  function AfterRemovals(views: seq<ImageView>, k: nat): seq<ImageView>
    decreases k
  {
    if k == 0 then views else RemoveLast(AfterRemovals(views, k - 1))
  }

  /** How many images are left after `k` guarded removals from `n`. */
  function Remaining(n: nat, k: nat): nat
  {
    if n <= 1 then n else if k >= n - 1 then 1 else n - k
  }

  /** `k` guarded removals keep a prefix of `max(1, n - k)` images (all of them
      when there is at most one). */
  lemma {:induction false} AfterRemovalsIsPrefix(views: seq<ImageView>, k: nat)
    ensures AfterRemovals(views, k) == views[..Remaining(|views|, k)]
    decreases k
  {
    if k > 0 {
      AfterRemovalsIsPrefix(views, k - 1);
    }
  }

  class RandomImageCenteringView {
    var imageViews: seq<ImageView>

    /** The floor of one: the centred image is never removed. */
    ghost predicate Valid()
      reads this
    {
      |imageViews| >= 1
    }

    constructor ()
      ensures Valid()
      ensures imageViews == [CenteredImage]
    {
      imageViews := [CenteredImage];
    }

    /** Adds one image on top; the images below are kept as they were. */
    method AddImageView(view: ImageView)
      requires Valid()
      modifies this
      ensures Valid()
      ensures imageViews == old(imageViews) + [view]
    {
      imageViews := imageViews + [view];
    }

    /** Removes the top image unless it is the last one left. */
    method RemoveLastImageView()
      requires Valid()
      modifies this
      ensures Valid()
      ensures imageViews == RemoveLast(old(imageViews))
      ensures |imageViews| == if |old(imageViews)| > 1 then |old(imageViews)| - 1 else 1
    {
      if |imageViews| > 1 {
        imageViews := imageViews[..|imageViews| - 1];
      }
    }

    /** Calls the guarded removal once per image: only the first image remains. */
    method RemoveAllAddedImageViews()
      requires Valid()
      modifies this
      ensures Valid()
      ensures imageViews == old(imageViews)[..1]
    {
      var count := |imageViews|;
      for i := 0 to count
        invariant Valid()
        invariant imageViews == AfterRemovals(old(imageViews), i)
      {
        RemoveLastImageView();
      }
      AfterRemovalsIsPrefix(old(imageViews), count);
    }
  }
}
