# CookieCart core, modelled in Dafny

CookieCart is a demo point-of-sale app. It sells cookies through a card-payment
SDK. Payment, authorization and the card reader live in that closed SDK. What
the app itself decides is modelled here, one Dafny module per Swift file:

- `ItemPicker` (`ItemPickerView.swift`): the quantity picker. It holds the
  item count and re-clamps it after every change to
  `[ceil(minimum / cost), floor(maximum / cost)]`, where minimum and maximum are
  the location's per-transaction card limits. It also holds the enablement of
  the + and − buttons, the long-press repeat timer, and the messages it sends
  to its delegate. The clamp bounds use integer ceiling and floor division.
  The picker's central property: the clamp range is exactly the set of counts
  whose total the payment provider accepts (`CountInRangeIffPayable`).
- `LoadingIndicator` (`CookieLoadingIndicator.swift`): the five-image cookie
  animation. Each timer firing shows the next image and wraps to the first.
  A cycle-complete message goes to the delegate exactly on the wrap.
- `ScreenHost` (`AppViewController.swift`): the root container. Its child list
  is the state. The current screen is the first child. `Show` attaches a screen
  to an empty host, ignores a screen of the current screen's type, and
  otherwise begins a crossfade. A crossfade first detaches every other child
  (a loop), then attaches the new screen. Its completion, which runs later,
  detaches the old screen. `UpdateScreen` shows the checkout screen when every
  required permission is granted. Otherwise it presents the permissions screen
  modally.
- `ImageStack` (`RandomImageCenteringView.swift`): the pile of cookie images on
  the checkout screen. It is a list that grows and shrinks at its end and
  never drops below its first, centred image.
- `Permissions` (`PermissionsViewController.swift`): the permission decision
  tables. They map each status to a button title and an enabled flag, and to
  what a tap does. The module also holds the "all required permissions
  granted" predicate and the screen's button state and delegate messages.

Modelling choices:

- Timer firings are explicit method calls: `LongPressTimerFired`, `TimerFired`.
  So are animation completions (`CompleteTransition`). The operating system's
  permission statuses are parameters.
- Delegate messages are recorded in a field: a log of `Notification`s for the
  picker, and counters for the indicator and the permissions screen.
- Screens are values with an identity (`id`). A counter hands out fresh
  identities, as constructing a new view controller does.
- `LoadingIndicator`: `startAnimating` does not touch the current image. A
  restart therefore resumes the cycle where it stopped; it does not go back
  to the first image. The model follows the code here.
- `ItemPicker`: a long-press gesture state other than began or ended, such as
  cancelled, falls through to `default: break`. A running repeat timer then
  keeps firing (`OtherGestureKeepsRepeating`). The model keeps this behaviour.
- `ItemPicker`: the add and subtract messages go to the delegate even when the
  clamp undoes the step. On the checkout screen, each such message adds or
  removes a cookie image, so the number of images can drift from the count.
- `ScreenHost`: during a crossfade, `show` still compares against the first
  child, the old screen. A screen of another type then replaces the screen
  being faded in. After the queued completions have run, the last screen shown
  is the only child (`ShowDuringCrossfadeRetargets`).

## Model

| member | source | states |
|---|---|---|
| `ItemPicker.MinimumCount` | CookieCart/Convenience/ItemPickerView.swift:208-212 | the minimum count is the least count whose total reaches the minimum amount (`lo * cost >= min > (lo - 1) * cost`), i.e. `ceil(min / cost)` |
| `ItemPicker.MaximumCount` | CookieCart/Convenience/ItemPickerView.swift:209-213 | the maximum count is the greatest count whose total stays within the maximum amount, i.e. `floor(max / cost)` |
| `ItemPicker.Clamp` | CookieCart/Convenience/ItemPickerView.swift:215 | `max(lo, min(hi, n))`: within `[lo, hi]` when that range is non-empty; unchanged inside it; `lo` below it; `hi` above it; `lo` when the range is empty |
| `ItemPicker.ClampIdempotent` | CookieCart/Convenience/ItemPickerView.swift:212-215 | re-running the clamp changes nothing, for any bounds |
| `ItemPicker.CountInRangeIffPayable` | CookieCart/Convenience/ItemPickerView.swift:207-215 | a count lies in `[minimumCount, maximumCount]` iff its total lies in `[minimumAmount, maximumAmount]` |
| `ItemPicker.ClampedCountIsPayable` | CookieCart/Convenience/ItemPickerView.swift:212-215 | when the range is non-empty, the total of every clamped count is within the per-transaction limits |
| `ItemPicker.AddChangesCountIff` | CookieCart/Convenience/ItemPickerView.swift:163-167 | on a clamped count, a clamped +1 changes the count iff the count is below the maximum (the + button's enablement, line 220) |
| `ItemPicker.SubtractChangesCountIff` | CookieCart/Convenience/ItemPickerView.swift:169-173 | on a clamped count, a clamped −1 changes the count iff the count is above the minimum (the − button's enablement, line 219) |
| `ItemPicker.ResetLandsOnMinimum` | CookieCart/Convenience/ItemPickerView.swift:112-115 | reset, the clamp of 0, gives the minimum count when `0 <= lo <= hi` |
| `ItemPicker.HeldAddIsClampOfSum` | CookieCart/Convenience/ItemPickerView.swift:175-180 | `k` firings of the + repeat timer from a clamped count give `clamp(count + k)`, each step clamped on its own |
| `ItemPicker.HeldSubtractIsClampOfDifference` | CookieCart/Convenience/ItemPickerView.swift:189-194 | `k` firings of the − repeat timer from a clamped count give `clamp(count - k)` |
| `ItemPicker.TimerAfterGesture` | CookieCart/Convenience/ItemPickerView.swift:175-201 | began starts a repeating timer for the pressed button; ended clears it; every other state leaves it as it was |
| `ItemPicker.OtherGestureKeepsRepeating` | CookieCart/Convenience/ItemPickerView.swift:184-185 | a gesture state that neither begins nor ends, such as cancelled, leaves a running repeat timer running |
| `ItemPicker.ItemPickerView.constructor` | CookieCart/Convenience/ItemPickerView.swift:43-106 | the initial count is `clamp(1)`; no timer; no delegate message; the buttons match the count |
| `ItemPicker.ItemPickerView.NumberOfItemsChanged` | CookieCart/Convenience/ItemPickerView.swift:207-221 | the count becomes `max(minCount, min(maxCount, old))`; − is enabled iff count > minCount; + iff count < maxCount |
| `ItemPicker.ItemPickerView.Reset` | CookieCart/Convenience/ItemPickerView.swift:112-115 | the count becomes `clamp(0)`, which is the minimum count when `0 <= minCount <= maxCount` |
| `ItemPicker.ItemPickerView.AddItem` | CookieCart/Convenience/ItemPickerView.swift:163-167 | the count becomes `clamp(old + 1)`; it changes iff + was enabled; exactly one add message is sent, even when the clamp undoes the step |
| `ItemPicker.ItemPickerView.SubtractItem` | CookieCart/Convenience/ItemPickerView.swift:169-173 | the count becomes `clamp(old - 1)`; it changes iff − was enabled; exactly one subtract message is sent |
| `ItemPicker.ItemPickerView.AddButtonLongPressed` | CookieCart/Convenience/ItemPickerView.swift:175-187 | the long-press timer after a gesture on + is `TimerAfterGesture(old, AddStep, gesture)` |
| `ItemPicker.ItemPickerView.SubtractButtonLongPressed` | CookieCart/Convenience/ItemPickerView.swift:189-201 | the long-press timer after a gesture on − is `TimerAfterGesture(old, SubtractStep, gesture)` |
| `ItemPicker.ItemPickerView.LongPressTimerFired` | CookieCart/Convenience/ItemPickerView.swift:178-193 | a repeating timer performs one add or subtract; with no timer nothing changes, so no step follows a release |
| `ItemPicker.ItemPickerView.TotalCost` | CookieCart/Convenience/ItemPickerView.swift:39-41 | the total is the count times the price: a whole multiple of a positive price, which divided by the price gives back the count |
| `ItemPicker.CostDividesBack` | CookieCart/Convenience/ItemPickerView.swift:39-41 | any count's total at a positive price is a multiple of the price, and dividing it by the price recovers the count |
| `ItemPicker.ItemPickerView.TotalCostWithinLimits` | CookieCart/Convenience/ItemPickerView.swift:39-41 | the total, the count times the price, lies within the payment limits whenever some count is payable |
| `ItemPicker.ItemPickerView.ChargeTotalAmount` | CookieCart/Convenience/ItemPickerView.swift:203-205 | sends one checkout request with the current count and `count * costPerItem`; the count is unchanged; that total is within the payment limits when the range is non-empty |
| `LoadingIndicator.NextFrame` | CookieCart/Convenience/CookieLoadingIndicator.swift:59-71 | the next image index is `(i + 1) mod 5` and stays in `[0, 5)`; the cycle-complete message is sent iff the index goes from 4 to 0 |
| `LoadingIndicator.TicksAdvanceModFive` | CookieCart/Convenience/CookieLoadingIndicator.swift:56-73 | after `k` firings the index is `(i + k) mod 5` and `(i + k) div 5` cycle-complete messages were sent |
| `LoadingIndicator.FiveTicksCompleteOneCycle` | CookieCart/Convenience/CookieLoadingIndicator.swift:59-71 | five firings from any image return to that image and send exactly one cycle-complete message |
| `LoadingIndicator.CookieLoadingIndicator.constructor` | CookieCart/Convenience/CookieLoadingIndicator.swift:28-31 | the indicator starts on the first image, with no timer and no message sent |
| `LoadingIndicator.CookieLoadingIndicator.StartAnimating` | CookieCart/Convenience/CookieLoadingIndicator.swift:54-56 | schedules the timer and leaves the image index where it was |
| `LoadingIndicator.CookieLoadingIndicator.StopAnimating` | CookieCart/Convenience/CookieLoadingIndicator.swift:76-80 | leaves no timer, whatever the state before, so a second call changes nothing |
| `LoadingIndicator.CookieLoadingIndicator.TimerFired` | CookieCart/Convenience/CookieLoadingIndicator.swift:56-73 | with a timer, the index becomes `NextFrame(old)` and one message is counted iff the old index was 4; without one, nothing changes |
| `ImageStack.AfterRemovalsIsPrefix` | CookieCart/Convenience/RandomImageCenteringView.swift:53-57 | `k` guarded removals keep the first `max(1, n - k)` images of a non-empty list |
| `ImageStack.RandomImageCenteringView.constructor` | CookieCart/Convenience/RandomImageCenteringView.swift:23-29 | a new view holds exactly one image, the centred one at full scale |
| `ImageStack.RandomImageCenteringView.AddImageView` | CookieCart/Convenience/RandomImageCenteringView.swift:36-44 | appends exactly the given image; the existing images are unchanged |
| `ImageStack.RandomImageCenteringView.RemoveLastImageView` | CookieCart/Convenience/RandomImageCenteringView.swift:46-51 | drops the last image iff there is more than one; otherwise nothing changes; the count never drops below 1 |
| `ImageStack.RandomImageCenteringView.RemoveAllAddedImageViews` | CookieCart/Convenience/RandomImageCenteringView.swift:53-57 | one guarded removal per image leaves exactly the first image |
| `Permissions.IsLocationAuthorized` | CookieCart/Screens/PermissionsViewController.swift:48 | location access counts as granted exactly when the status is neither not determined, restricted nor denied |
| `Permissions.AreRequiredPermissionsGranted` | CookieCart/Screens/PermissionsViewController.swift:46-51 | granted iff the microphone is granted and location is neither not determined, restricted nor denied; an undetermined permission of either kind rules it out |
| `Permissions.MicrophoneTapAction` | CookieCart/Screens/PermissionsViewController.swift:187-196 | denied opens Settings; undetermined requests access; granted does nothing |
| `Permissions.LocationTapAction` | CookieCart/Screens/PermissionsViewController.swift:233-242 | denied or restricted opens Settings; not determined requests access; either authorized status does nothing |
| `Permissions.MicrophoneButton` | CookieCart/Screens/PermissionsViewController.swift:210-228 | the microphone button is disabled iff the permission is granted, i.e. enabled iff tapping it has an effect |
| `Permissions.LocationButton` | CookieCart/Screens/PermissionsViewController.swift:257-275 | the location button is disabled iff location is authorized, i.e. enabled iff tapping it has an effect |
| `Permissions.MicrophoneTitleNamesTapAction` | CookieCart/Screens/PermissionsViewController.swift:214-224 | two permissions share a microphone title iff tapping does the same thing: one title per tap action |
| `Permissions.LocationTitleNamesTapAction` | CookieCart/Screens/PermissionsViewController.swift:261-271 | two statuses share a location title iff tapping does the same thing, so denied and restricted share one title |
| `Permissions.GrantedIffBothButtonsDisabled` | CookieCart/Screens/PermissionsViewController.swift:46-51 | all required permissions are granted (location when-in-use or always, microphone granted) iff both buttons are disabled |
| `Permissions.PermissionsViewController.constructor` | CookieCart/Screens/PermissionsViewController.swift:41-42 | both buttons start enabled with their "Enable … Access" titles |
| `Permissions.PermissionsViewController.UpdateMicrophoneButton` | CookieCart/Screens/PermissionsViewController.swift:210-228 | the microphone button becomes `MicrophoneButton(status)` |
| `Permissions.PermissionsViewController.UpdateLocationButton` | CookieCart/Screens/PermissionsViewController.swift:257-275 | the location button becomes `LocationButton(status)` |
| `Permissions.PermissionsViewController.RefreshButtons` | CookieCart/Screens/PermissionsViewController.swift:96-109 | both buttons reflect the statuses; both are disabled iff every required permission is granted |
| `Permissions.PermissionsViewController.MicrophoneButtonTapped` | CookieCart/Screens/PermissionsViewController.swift:187-196 | the side effect of a tap is `MicrophoneTapAction(status)` |
| `Permissions.PermissionsViewController.LocationButtonTapped` | CookieCart/Screens/PermissionsViewController.swift:233-242 | the side effect of a tap is `LocationTapAction(status)` |
| `Permissions.PermissionsViewController.MicrophoneAccessAnswered` | CookieCart/Screens/PermissionsViewController.swift:198-208 | refreshes the microphone button; the delegate is told iff every required permission is now granted |
| `Permissions.PermissionsViewController.LocationAuthorizationChanged` | CookieCart/Screens/PermissionsViewController.swift:249-255 | refreshes the location button; the delegate is told iff every required permission is now granted |
| `ScreenHost.Without` | CookieCart/AppViewController.swift:106-112 | detaching a screen keeps exactly the other screens, keeps them distinct, keeps the first child first when it is not the one detached, and changes nothing when the screen is not attached |
| `ScreenHost.ShowOnEmptyThenSameKind` | CookieCart/AppViewController.swift:88-101 | showing on an empty host makes the screen the only child; showing a screen of the same type next changes nothing |
| `ScreenHost.CrossfadeEndsWithOnlyNewScreen` | CookieCart/AppViewController.swift:104-137 | a crossfade to a screen of another type, once completed, leaves the new screen as the only child |
| `ScreenHost.ShowDuringCrossfadeRetargets` | CookieCart/AppViewController.swift:88-137 | `show` during a crossfade replaces the incoming screen; after both completions the last screen shown is the only child |
| `ScreenHost.AppViewController.constructor` | CookieCart/AppViewController.swift:22-25 | a new container has no children, no pending crossfade and nothing presented |
| `ScreenHost.AppViewController.NewScreen` | CookieCart/AppViewController.swift:66 | a freshly created view controller has the requested type and is not any attached screen |
| `ScreenHost.AppViewController.CurrentViewController` | CookieCart/AppViewController.swift:23-25 | the current screen is the first child, or none when there are no children |
| `ScreenHost.AppViewController.Show` | CookieCart/AppViewController.swift:88-101 | empty host: the screen becomes the only child; same type as the current screen: nothing changes; otherwise the children become `[current, new]` and one completion is queued |
| `ScreenHost.AppViewController.Transition` | CookieCart/AppViewController.swift:104-137 | the removal loop detaches every child but `from`, then `to` is attached: children `[from, to]`, completion queued |
| `ScreenHost.AppViewController.CompleteTransition` | CookieCart/AppViewController.swift:125-129 | the oldest queued completion detaches its old screen, so `[from, to]` becomes `[to]`; with none queued nothing changes |
| `ScreenHost.AppViewController.UpdateScreen` | CookieCart/AppViewController.swift:48-69 | shows a new checkout screen iff every required permission is granted, queueing a crossfade exactly when the current screen is of another type; otherwise presents a new permissions screen modally and leaves the children and the queue alone |
| `ScreenHost.AppViewController.ViewDidLoad` | CookieCart/AppViewController.swift:27-38 | shows a new authorization screen: the only child on an empty host, a queued crossfade from a current screen of another type, nothing queued otherwise; the presented screen is kept |
| `ScreenHost.AppViewController.PermissionsDidObtainRequired` | CookieCart/AppViewController.swift:78-83 | dismisses the permissions screen; when every permission is granted shows a new checkout screen, queueing the crossfade from a current screen of another type; otherwise presents a new permissions screen and leaves children and queue alone |

## Left out

- Delegates are optional (`delegate?.`), and those of the picker and the permissions screen are weak: with no delegate set nothing is sent. The message log of `ItemPicker.ItemPickerView`, and the report counters of `LoadingIndicator.CookieLoadingIndicator` and `Permissions.PermissionsViewController`, record every message as if a delegate were always set.
- Currency formatting (`format(amount:)`, `NumberFormatter`, `Float` division) and the label and charge-button titles built from it. The model exposes only the integer total.
- ItemPicker.MinimumCount and ItemPicker.MaximumCount: exact integer ceiling and floor. The source converts to `Double` first, which agrees for amounts up to 2^53. A cost of 0 makes the source trap (`Int` of an infinite or NaN `Double`). A negative cost does not trap there (both bounds stay finite); the model requires a positive cost, the only kind the app passes (150, CookieCart/Screens/PayViewController.swift:103-104).
- Swift's 64-bit `Int`, which traps on overflow of `numberOfItems + 1` or `numberOfItems * costPerItem`. Integers are unbounded here.
- Replacing a live timer when `.began` or `startAnimating` happens twice: the old timer is overwritten without being invalidated. A single timer field stands for "a timer is scheduled".
- Timer intervals (0.1 s, 0.3 s), run-loop scheduling, `deinit` invalidation, and the 0.25 s crossfade animation with its alpha values. Firings and completions are explicit calls.
- What delegates do with their messages: stopping the indicator from inside the cycle-complete callback, and adding or removing checkout images. The authorization screen's checks on the SDK's authorization state are also left out.
- The identity of the indicator's images: `images.index(of:)` is modelled as the index itself, which assumes the five images are distinct.
- Random placement and scale of added cookie images (`arc4random_uniform`, `CGFloat`) and their layout constraints. `AddImageView` takes the placement as a parameter.
- View-controller containment callbacks (`willMove`, `didMove`), views and frames. UIKit's refusal to present a screen while another is presented is also left out.
- The choice between the card-style and sheet-style presentation controllers, and those controllers themselves.
- The foreground notification that calls `updateScreen` and the permission buttons' update methods. Callers invoke those methods directly.
- The operating-system permission requests and opening the Settings app. The tap handlers return the action to perform.
