/** The quantity picker of the checkout screen.

    It keeps an item count and re-clamps it after every change to the range of
    counts whose total the payment provider accepts for one transaction:
    `[ceil(minimumAmount / costPerItem), floor(maximumAmount / costPerItem)]`.
    Amounts are integers in the currency's minor unit (cents). */
module ItemPicker {

  // ---------------------------------------------------------------------------
  // Amount arithmetic (pure)
  // ---------------------------------------------------------------------------

  /** The price of `count` items (the picker's total cost). */
  function CostOf(count: int, costPerItem: int): int
  {
    count * costPerItem
  }

  /** A total at a positive price is a whole multiple of that price, and
      dividing it by the price gives back the count. */
  lemma CostDividesBack(count: int, costPerItem: int)
    ensures costPerItem > 0 ==>
              CostOf(count, costPerItem) % costPerItem == 0 && CostOf(count, costPerItem) / costPerItem == count
  {
    if costPerItem > 0 {
      var total := CostOf(count, costPerItem);
      var q, m := total / costPerItem, total % costPerItem;
      assert CostOf(count - q, costPerItem) == m;
      SmallMultipleIsZero(count - q, costPerItem);
    }
  }

  /** The only multiple of a positive price below that price is zero. */
  lemma SmallMultipleIsZero(d: int, costPerItem: int)
    requires costPerItem > 0 && 0 <= CostOf(d, costPerItem) < costPerItem
    ensures d == 0
  {
    if d >= 1 {
      CostMonotone(1, d, costPerItem);
    } else if d <= -1 {
      CostMonotone(d, -1, costPerItem);
    }
  }

  /** Multiplying by a non-negative price keeps the order of counts. */
  lemma CostMonotone(x: int, y: int, costPerItem: int)
    requires x <= y && costPerItem >= 0
    ensures CostOf(x, costPerItem) <= CostOf(y, costPerItem)
  {
    assert CostOf(y, costPerItem) - CostOf(x, costPerItem) == (y - x) * costPerItem;
  }

  /** The fewest items whose total reaches `minimumAmount`: ceiling division,
      the integer form of `ceil(minimum / cost)`. */
  function MinimumCount(minimumAmount: int, costPerItem: int): (lo: int)
    requires costPerItem > 0
    ensures CostOf(lo, costPerItem) >= minimumAmount
    ensures CostOf(lo - 1, costPerItem) < minimumAmount
  {
    var q := (-minimumAmount) / costPerItem;
    assert -minimumAmount == costPerItem * q + (-minimumAmount) % costPerItem;
    -q
  }

  /** The most items whose total stays within `maximumAmount`: floor division,
      the integer form of `floor(maximum / cost)`. */
  function MaximumCount(maximumAmount: int, costPerItem: int): (hi: int)
    requires costPerItem > 0
    ensures CostOf(hi, costPerItem) <= maximumAmount
    ensures CostOf(hi + 1, costPerItem) > maximumAmount
  {
    var q := maximumAmount / costPerItem;
    assert maximumAmount == costPerItem * q + maximumAmount % costPerItem;
    q
  }

  /** `max(lo, min(hi, count))`: when the range is empty the lower bound wins. */
  function Clamp(count: int, lo: int, hi: int): (r: int)
    ensures lo <= hi ==> lo <= r <= hi
    ensures lo <= count <= hi ==> r == count
    ensures count < lo ==> r == lo
    ensures lo <= hi < count ==> r == hi
    ensures lo > hi ==> r == lo
  {
    var m := if hi < count then hi else count;
    if m < lo then lo else m
  }

  /** The clamp with the bounds derived from the price and the amount limits. */
  function ClampCount(count: int, costPerItem: int, minimumAmount: int, maximumAmount: int): int
    requires costPerItem > 0
  {
    Clamp(count, MinimumCount(minimumAmount, costPerItem), MaximumCount(maximumAmount, costPerItem))
  }

  // ---------------------------------------------------------------------------
  // Properties of the clamp
  // ---------------------------------------------------------------------------

  /** Re-running the clamp changes nothing, whatever the bounds. */
  lemma ClampIdempotent(count: int, lo: int, hi: int)
    ensures Clamp(Clamp(count, lo, hi), lo, hi) == Clamp(count, lo, hi)
  {
  }

  /** The clamp range is exactly the set of counts whose total the payment
      provider accepts: `lo <= k <= hi` iff `minimum <= k * cost <= maximum`. */
  lemma {:induction false} CountInRangeIffPayable(k: int, costPerItem: int, minimumAmount: int, maximumAmount: int)
    requires costPerItem > 0
    ensures MinimumCount(minimumAmount, costPerItem) <= k <= MaximumCount(maximumAmount, costPerItem)
            <==> minimumAmount <= CostOf(k, costPerItem) <= maximumAmount
  {
    var lo := MinimumCount(minimumAmount, costPerItem);
    var hi := MaximumCount(maximumAmount, costPerItem);
    if lo <= k {
      CostMonotone(lo, k, costPerItem);
    } else {
      CostMonotone(k, lo - 1, costPerItem);
    }
    if k <= hi {
      CostMonotone(k, hi, costPerItem);
    } else {
      CostMonotone(hi + 1, k, costPerItem);
    }
  }

  /** Whenever some count is payable, every clamped count is payable. */
  lemma ClampedCountIsPayable(count: int, costPerItem: int, minimumAmount: int, maximumAmount: int)
    requires costPerItem > 0
    requires MinimumCount(minimumAmount, costPerItem) <= MaximumCount(maximumAmount, costPerItem)
    ensures minimumAmount <= CostOf(ClampCount(count, costPerItem, minimumAmount, maximumAmount), costPerItem) <= maximumAmount
  {
    CountInRangeIffPayable(ClampCount(count, costPerItem, minimumAmount, maximumAmount), costPerItem, minimumAmount, maximumAmount);
  }

  /** On a clamped count, adding one item changes the count iff the count is
      below the upper bound: the + button is enabled exactly when it has an effect. */
  lemma AddChangesCountIff(count: int, lo: int, hi: int)
    requires count == Clamp(count, lo, hi)
    ensures Clamp(count + 1, lo, hi) != count <==> count < hi
  {
  }

  /** On a clamped count, subtracting one item changes the count iff the count
      is above the lower bound: the − button is enabled exactly when it has an effect. */
  lemma SubtractChangesCountIff(count: int, lo: int, hi: int)
    requires count == Clamp(count, lo, hi)
    ensures Clamp(count - 1, lo, hi) != count <==> count > lo
  {
  }

  /** Reset lands on the minimum count, not on zero, whenever that minimum is
      non-negative and the range is non-empty. */
  lemma ResetLandsOnMinimum(lo: int, hi: int)
    requires 0 <= lo <= hi
    ensures Clamp(0, lo, hi) == lo
  {
  }

  /** The count after `ticks` firings of the repeating timer of a held button,
      each firing one clamped step. */
  function HeldSteps(count: int, ticks: nat, delta: int, lo: int, hi: int): int
    decreases ticks
  {
    if ticks == 0 then count else HeldSteps(Clamp(count + delta, lo, hi), ticks - 1, delta, lo, hi)
  }

  /** Holding + for `ticks` firings from a clamped count gives the clamp of
      `count + ticks`; every intermediate step was clamped on its own. */
  lemma {:induction false} HeldAddIsClampOfSum(count: int, ticks: nat, lo: int, hi: int)
    requires count == Clamp(count, lo, hi)
    ensures HeldSteps(count, ticks, 1, lo, hi) == Clamp(count + ticks, lo, hi)
    decreases ticks
  {
    if ticks > 0 {
      var next := Clamp(count + 1, lo, hi);
      HeldAddIsClampOfSum(next, ticks - 1, lo, hi);
    }
  }

  /** Holding − for `ticks` firings from a clamped count gives the clamp of
      `count - ticks`. */
  lemma {:induction false} HeldSubtractIsClampOfDifference(count: int, ticks: nat, lo: int, hi: int)
    requires count == Clamp(count, lo, hi)
    ensures HeldSteps(count, ticks, -1, lo, hi) == Clamp(count - ticks, lo, hi)
    decreases ticks
  {
    if ticks > 0 {
      var next := Clamp(count - 1, lo, hi);
      HeldSubtractIsClampOfDifference(next, ticks - 1, lo, hi);
    }
  }

  // ---------------------------------------------------------------------------
  // The widget
  // ---------------------------------------------------------------------------

  /** What the repeating timer of a held button does on each firing. */
  datatype Step = AddStep | SubtractStep

  /** The long-press timer: none, or one repeating a step every 0.1 s. */
  datatype HoldTimer = NoTimer | Repeating(step: Step)

  /** The states of a long-press gesture the handlers tell apart; every other
      state (changed, cancelled, failed, possible) is `OtherState`. */
  datatype GestureState = Began | Ended | OtherState

  /** A message to the picker's delegate. */
  datatype Notification =
    | DidAddItem
    | DidSubtractItem
    | DidRequestCheckout(numberOfItems: int, totalCost: int)

  /** The long-press timer after a gesture on the button for `step`: began
      starts repeating, ended stops, and any other state leaves it as it was. */
  function TimerAfterGesture(timer: HoldTimer, step: Step, gesture: GestureState): (t: HoldTimer)
    ensures t == NoTimer <==> gesture == Ended || (gesture == OtherState && timer == NoTimer)
    ensures gesture == Began ==> t.Repeating? && t.step == step
    ensures gesture == OtherState ==> t == timer
  {
    match gesture
    case Began => Repeating(step)
    case Ended => NoTimer
    case OtherState => timer
  }

  /** A gesture that neither begins nor ends (a cancelled press, for one)
      leaves a running repeat timer running. */
  lemma OtherGestureKeepsRepeating(step: Step, held: Step)
    ensures TimerAfterGesture(Repeating(held), step, OtherState) == Repeating(held)
  {
  }

  class ItemPickerView {
    const costPerItem: int
    /** The authorized location's per-transaction card payment limits. */
    const minimumAmount: int
    const maximumAmount: int

    var numberOfItems: int
    var subtractEnabled: bool
    var addEnabled: bool
    var longPressTimer: HoldTimer
    /** Every message sent to the delegate, oldest first. */
    var notifications: seq<Notification>

    function MinCount(): int
      requires costPerItem > 0
    {
      MinimumCount(minimumAmount, costPerItem)
    }

    function MaxCount(): int
      requires costPerItem > 0
    {
      MaximumCount(maximumAmount, costPerItem)
    }

    /** The price of the items picked: a whole number of items at the unit
        price, so dividing by the price gives back the count. */
    function TotalCost(): (r: int)
      reads this
      ensures costPerItem > 0 ==> r % costPerItem == 0 && r / costPerItem == numberOfItems
    {
      CostDividesBack(numberOfItems, costPerItem);
      CostOf(numberOfItems, costPerItem)
    }

    /** The state every public operation leaves behind: the count is a fixed
        point of the clamp and the buttons show whether a step is possible. */
    ghost predicate Valid()
      reads this
    {
      && costPerItem > 0
      && numberOfItems == Clamp(numberOfItems, MinCount(), MaxCount())
      && subtractEnabled == (numberOfItems > MinCount())
      && addEnabled == (numberOfItems < MaxCount())
    }

    constructor (costPerItem: int, minimumAmount: int, maximumAmount: int)
      requires costPerItem > 0
      ensures Valid()
      ensures this.costPerItem == costPerItem
      ensures this.minimumAmount == minimumAmount && this.maximumAmount == maximumAmount
      ensures numberOfItems == ClampCount(1, costPerItem, minimumAmount, maximumAmount)
      ensures longPressTimer == NoTimer && notifications == []
    {
      this.costPerItem := costPerItem;
      this.minimumAmount := minimumAmount;
      this.maximumAmount := maximumAmount;
      numberOfItems := 1;
      longPressTimer := NoTimer;
      notifications := [];
      new;
      NumberOfItemsChanged();
    }

    /** Re-clamps the count and recomputes which buttons are enabled. */
    method NumberOfItemsChanged()
      requires costPerItem > 0
      modifies this`numberOfItems, this`subtractEnabled, this`addEnabled
      ensures Valid()
      ensures numberOfItems == Clamp(old(numberOfItems), MinCount(), MaxCount())
    {
      var lo, hi := MinCount(), MaxCount();
      ClampIdempotent(numberOfItems, lo, hi);
      numberOfItems := Clamp(numberOfItems, lo, hi);
      subtractEnabled := numberOfItems > lo;
      addEnabled := numberOfItems < hi;
    }

    /** Resets the count after a finished checkout. */
    method Reset()
      requires Valid()
      modifies this`numberOfItems, this`subtractEnabled, this`addEnabled
      ensures Valid()
      ensures numberOfItems == Clamp(0, MinCount(), MaxCount())
      ensures 0 <= MinCount() <= MaxCount() ==> numberOfItems == MinCount()
    {
      numberOfItems := 0;
      NumberOfItemsChanged();
    }

    /** The + button: one more item, one delegate message, then the clamp. The
        message is sent even when the clamp undoes the step. */
    method AddItem()
      requires Valid()
      modifies this`numberOfItems, this`subtractEnabled, this`addEnabled, this`notifications
      ensures Valid()
      ensures numberOfItems == Clamp(old(numberOfItems) + 1, MinCount(), MaxCount())
      ensures numberOfItems != old(numberOfItems) <==> old(addEnabled)
      ensures notifications == old(notifications) + [DidAddItem]
    {
      AddChangesCountIff(numberOfItems, MinCount(), MaxCount());
      numberOfItems := numberOfItems + 1;
      notifications := notifications + [DidAddItem];
      NumberOfItemsChanged();
    }

    /** The − button, symmetric to the + button. */
    method SubtractItem()
      requires Valid()
      modifies this`numberOfItems, this`subtractEnabled, this`addEnabled, this`notifications
      ensures Valid()
      ensures numberOfItems == Clamp(old(numberOfItems) - 1, MinCount(), MaxCount())
      ensures numberOfItems != old(numberOfItems) <==> old(subtractEnabled)
      ensures notifications == old(notifications) + [DidSubtractItem]
    {
      SubtractChangesCountIff(numberOfItems, MinCount(), MaxCount());
      numberOfItems := numberOfItems - 1;
      notifications := notifications + [DidSubtractItem];
      NumberOfItemsChanged();
    }

    /** Long-press on the + button. */
    method AddButtonLongPressed(gesture: GestureState)
      modifies this`longPressTimer
      ensures longPressTimer == TimerAfterGesture(old(longPressTimer), AddStep, gesture)
    {
      match gesture
      case Began => longPressTimer := Repeating(AddStep);
      case Ended => longPressTimer := NoTimer;
      case OtherState =>
    }

    /** Long-press on the − button. */
    method SubtractButtonLongPressed(gesture: GestureState)
      modifies this`longPressTimer
      ensures longPressTimer == TimerAfterGesture(old(longPressTimer), SubtractStep, gesture)
    {
      match gesture
      case Began => longPressTimer := Repeating(SubtractStep);
      case Ended => longPressTimer := NoTimer;
      case OtherState =>
    }

    /** One firing of the long-press timer. An invalidated timer never fires,
        so after `Ended` nothing more happens. */
    method LongPressTimerFired()
      requires Valid()
      modifies this`numberOfItems, this`subtractEnabled, this`addEnabled, this`notifications
      ensures Valid()
      ensures old(longPressTimer) == NoTimer ==>
                numberOfItems == old(numberOfItems) && notifications == old(notifications)
      ensures old(longPressTimer) == Repeating(AddStep) ==>
                numberOfItems == Clamp(old(numberOfItems) + 1, MinCount(), MaxCount())
                && notifications == old(notifications) + [DidAddItem]
      ensures old(longPressTimer) == Repeating(SubtractStep) ==>
                numberOfItems == Clamp(old(numberOfItems) - 1, MinCount(), MaxCount())
                && notifications == old(notifications) + [DidSubtractItem]
    {
      match longPressTimer
      case NoTimer =>
      case Repeating(AddStep) => AddItem();
      case Repeating(SubtractStep) => SubtractItem();
    }

    /** Whenever some count is payable, the total of the picked items is
        within the payment limits. */
    lemma TotalCostWithinLimits()
      requires Valid() && MinCount() <= MaxCount()
      ensures minimumAmount <= TotalCost() <= maximumAmount
    {
      ClampedCountIsPayable(numberOfItems, costPerItem, minimumAmount, maximumAmount);
    }

    /** The charge button: asks the delegate to check out the current count and
        total. Nothing about the picker changes. */
    method ChargeTotalAmount()
      requires Valid()
      modifies this`notifications
      ensures notifications == old(notifications) + [DidRequestCheckout(numberOfItems, numberOfItems * costPerItem)]
      ensures MinCount() <= MaxCount() ==> minimumAmount <= TotalCost() <= maximumAmount
    {
      if MinCount() <= MaxCount() {
        TotalCostWithinLimits();
      }
      notifications := notifications + [DidRequestCheckout(numberOfItems, TotalCost())];
    }
  }

  /** The checkout scenario of a $1.50 cookie with limits $1.00 to $50.00: the
      count runs from 1 to 33. */
  method CookieCheckoutSession()
  {
    var picker := new ItemPickerView(150, 100, 5000);
    assert picker.MinCount() == 1 && picker.MaxCount() == 33;
    assert picker.numberOfItems == 1 && !picker.subtractEnabled;
    picker.AddItem(); picker.AddItem(); picker.AddItem(); picker.AddItem(); picker.AddItem();
    assert picker.numberOfItems == 6 && picker.TotalCost() == 900;
    picker.SubtractItem(); picker.SubtractItem(); picker.SubtractItem();
    picker.SubtractItem(); picker.SubtractItem(); picker.SubtractItem();
    assert picker.numberOfItems == 1 && !picker.subtractEnabled;
  }
}
