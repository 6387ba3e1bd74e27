/** The crumbling-cookie loading indicator: a repeating timer steps through a
    fixed cycle of five images and reports every completed cycle to its delegate. */
module LoadingIndicator {

  /** The number of cookie images in the cycle. */
  const FrameCount: nat := 5

  /** The image shown after one timer firing, and whether the cycle wrapped. */
  datatype Tick = Tick(frame: nat, cycleCompleted: bool)

  /** One firing of the animation timer: the next image, back to the first
      one after the last, with a completed cycle reported on the wrap. */
  function NextFrame(frame: nat): (t: Tick)
    requires frame < FrameCount
    ensures t.frame < FrameCount
    ensures t.frame == (frame + 1) % FrameCount
    ensures t.cycleCompleted <==> t.frame < frame
    ensures t.cycleCompleted <==> frame == FrameCount - 1
  {
    var next := frame + 1;
    if next == FrameCount then Tick(0, true) else Tick(next, false)
  }

  /** The image on screen after `ticks` firings. */
  function FrameAfter(frame: nat, ticks: nat): nat
    requires frame < FrameCount
    decreases ticks
  {
    if ticks == 0 then frame else FrameAfter(NextFrame(frame).frame, ticks - 1)
  }

  /** The number of cycle-complete notifications in `ticks` firings. */
  function Completions(frame: nat, ticks: nat): nat
    requires frame < FrameCount
    decreases ticks
  {
    if ticks == 0 then 0
    else
      var first := NextFrame(frame);
      (if first.cycleCompleted then 1 else 0) + Completions(first.frame, ticks - 1)
  }

  /** After `ticks` firings the image is `(frame + ticks) mod 5`, and one
      notification was sent per wrap: `(frame + ticks) div 5` of them. */
  lemma {:induction false} TicksAdvanceModFive(frame: nat, ticks: nat)
    requires frame < FrameCount
    ensures FrameAfter(frame, ticks) == (frame + ticks) % FrameCount
    ensures Completions(frame, ticks) == (frame + ticks) / FrameCount
    decreases ticks
  {
    if ticks > 0 {
      var first := NextFrame(frame);
      TicksAdvanceModFive(first.frame, ticks - 1);
      if first.cycleCompleted {
        assert frame + ticks == FrameCount + (ticks - 1);
      } else {
        assert first.frame + (ticks - 1) == frame + ticks;
      }
    }
  }

  /** Five firings from any image return to that image with exactly one
      cycle-complete notification. */
  lemma FiveTicksCompleteOneCycle(frame: nat)
    requires frame < FrameCount
    ensures FrameAfter(frame, FrameCount) == frame
    ensures Completions(frame, FrameCount) == 1
  {
    TicksAdvanceModFive(frame, FrameCount);
  }

  class CookieLoadingIndicator {
    /** Index of the image on screen. */
    var currentImage: nat
    /** Whether a repeating timer is scheduled. */
    var timerScheduled: bool
    /** How many times the delegate was told a cycle completed. */
    var cyclesReported: nat

    ghost predicate Valid()
      reads this
    {
      currentImage < FrameCount
    }

    constructor ()
      ensures Valid()
      ensures currentImage == 0 && !timerScheduled && cyclesReported == 0
    {
      currentImage := 0;
      timerScheduled := false;
      cyclesReported := 0;
    }

    /** Schedules the repeating timer; the image on screen stays where it is,
        so a restart resumes the cycle where it stopped. */
    method StartAnimating()
      requires Valid()
      modifies this`timerScheduled
      ensures Valid()
      ensures timerScheduled
    {
      timerScheduled := true;
    }

    /** Invalidates the timer; calling it again changes nothing. */
    method StopAnimating()
      requires Valid()
      modifies this`timerScheduled
      ensures Valid()
      ensures !timerScheduled
    {
      timerScheduled := false;
    }

    /** One firing of the animation timer. An invalidated timer never fires. */
    method TimerFired()
      requires Valid()
      modifies this`currentImage, this`cyclesReported
      ensures Valid()
      ensures !timerScheduled ==> currentImage == old(currentImage) && cyclesReported == old(cyclesReported)
      ensures timerScheduled ==> currentImage == NextFrame(old(currentImage)).frame
      ensures timerScheduled ==>
                cyclesReported == old(cyclesReported) + (if old(currentImage) == FrameCount - 1 then 1 else 0)
    {
      if timerScheduled {
        var tick := NextFrame(currentImage);
        currentImage := tick.frame;
        if tick.cycleCompleted {
          cyclesReported := cyclesReported + 1;
        }
      }
    }
  }

  /** Five firings eat one cookie; a stopped indicator ignores a late firing,
      a second stop changes nothing and a restart resumes on the same image. */
  method OneCookieEaten()
  {
    var indicator := new CookieLoadingIndicator();
    indicator.StartAnimating();
    indicator.TimerFired(); indicator.TimerFired(); indicator.TimerFired();
    indicator.TimerFired(); indicator.TimerFired();
    assert indicator.currentImage == 0 && indicator.cyclesReported == 1;
    indicator.TimerFired(); indicator.TimerFired();
    indicator.StopAnimating();
    indicator.TimerFired();
    indicator.StopAnimating();
    assert indicator.currentImage == 2 && !indicator.timerScheduled;
    indicator.StartAnimating();
    assert indicator.currentImage == 2 && indicator.cyclesReported == 1;
  }
}
