/** The permissions screen: the two operating-system permissions the card
    reader needs (microphone, location while in use), one button for each, and
    the decision of when all required permissions are granted.

    The statuses are queried from the operating system in the app; here they
    are inputs. */
module Permissions {

  /** The microphone record permission. */
  datatype MicrophonePermission = Undetermined | MicDenied | Granted

  /** The location authorization status. */
  datatype LocationStatus = NotDetermined | Restricted | LocationDenied | AuthorizedAlways | AuthorizedWhenInUse

  /** What a button shows. */
  datatype ButtonState = ButtonState(title: string, isEnabled: bool)

  /** The side effect of tapping a permission button. */
  datatype TapAction = OpenSettings | RequestAccess | NoAction

  /** Location access counts as granted when in use or always; every other
      status (not determined, restricted, denied) does not. */
  function IsLocationAuthorized(location: LocationStatus): (r: bool)
    ensures r <==> location != NotDetermined && location != Restricted && location != LocationDenied
  {
    location == AuthorizedWhenInUse || location == AuthorizedAlways
  }

  /** All required permissions: location authorized (when in use or always)
      and microphone granted. */
  function AreRequiredPermissionsGranted(location: LocationStatus, microphone: MicrophonePermission): (r: bool)
    ensures r <==> microphone == Granted
                   && location != NotDetermined && location != Restricted && location != LocationDenied
    ensures location == NotDetermined || microphone == Undetermined ==> !r
  {
    IsLocationAuthorized(location) && microphone == Granted
  }

  /** The tap handler of the microphone button: denied sends the user to the
      Settings app, undetermined asks, granted does nothing. */
  function MicrophoneTapAction(microphone: MicrophonePermission): (a: TapAction)
    ensures a == OpenSettings <==> microphone == MicDenied
    ensures a == RequestAccess <==> microphone == Undetermined
    ensures a == NoAction <==> microphone == Granted
  {
    match microphone
    case MicDenied => OpenSettings
    case Undetermined => RequestAccess
    case Granted => NoAction
  }

  /** The tap handler of the location button: denied or restricted sends the
      user to the Settings app, not determined asks, authorized does nothing. */
  function LocationTapAction(location: LocationStatus): (a: TapAction)
    ensures a == OpenSettings <==> location == LocationDenied || location == Restricted
    ensures a == RequestAccess <==> location == NotDetermined
    ensures a == NoAction <==> IsLocationAuthorized(location)
  {
    match location
    case LocationDenied | Restricted => OpenSettings
    case NotDetermined => RequestAccess
    case AuthorizedAlways | AuthorizedWhenInUse => NoAction
  }

  /** The microphone button for a permission: disabled exactly when granted,
      and enabled exactly when tapping it does something. */
  function MicrophoneButton(microphone: MicrophonePermission): (b: ButtonState)
    ensures !b.isEnabled <==> microphone == Granted
    ensures b.isEnabled <==> MicrophoneTapAction(microphone) != NoAction
  {
    match microphone
    case MicDenied => ButtonState("Enable Microphone in Settings", true)
    case Granted => ButtonState("Microphone Enabled", false)
    case Undetermined => ButtonState("Enable Microphone Access", true)
  }

  /** The location button for a status: disabled exactly when authorized, and
      enabled exactly when tapping it does something. */
  function LocationButton(location: LocationStatus): (b: ButtonState)
    ensures !b.isEnabled <==> IsLocationAuthorized(location)
    ensures b.isEnabled <==> LocationTapAction(location) != NoAction
  {
    match location
    case LocationDenied | Restricted => ButtonState("Enable Location in Settings", true)
    case AuthorizedAlways | AuthorizedWhenInUse => ButtonState("Location Granted", false)
    case NotDetermined => ButtonState("Enable Location Access", true)
  }

  /** Two microphone permissions show the same title exactly when tapping the
      button does the same thing: one title per tap action. */
  lemma MicrophoneTitleNamesTapAction(p: MicrophonePermission, q: MicrophonePermission)
    ensures MicrophoneButton(p).title == MicrophoneButton(q).title
            <==> MicrophoneTapAction(p) == MicrophoneTapAction(q)
  {
  }

  /** Two location statuses show the same title exactly when tapping the button
      does the same thing; so denied and restricted share one title. */
  lemma LocationTitleNamesTapAction(s: LocationStatus, t: LocationStatus)
    ensures LocationButton(s).title == LocationButton(t).title
            <==> LocationTapAction(s) == LocationTapAction(t)
  {
  }

  /** All required permissions are granted exactly when both buttons are
      disabled: the screen then has nothing left to ask for. */
  lemma GrantedIffBothButtonsDisabled(location: LocationStatus, microphone: MicrophonePermission)
    ensures AreRequiredPermissionsGranted(location, microphone)
            <==> !LocationButton(location).isEnabled && !MicrophoneButton(microphone).isEnabled
  {
  }

  class PermissionsViewController {
    var microphoneButton: ButtonState
    var locationButton: ButtonState
    /** How many times the delegate was told that every required permission
        is granted. */
    var permissionsObtainedReports: nat

    /** The buttons as first built, before the view loads. */
    constructor ()
      ensures microphoneButton == ButtonState("Enable Microphone Access", true)
      ensures locationButton == ButtonState("Enable Location Access", true)
      ensures permissionsObtainedReports == 0
    {
      microphoneButton := ButtonState("Enable Microphone Access", true);
      locationButton := ButtonState("Enable Location Access", true);
      permissionsObtainedReports := 0;
    }

    method UpdateMicrophoneButton(microphone: MicrophonePermission)
      modifies this`microphoneButton
      ensures microphoneButton == MicrophoneButton(microphone)
    {
      microphoneButton := MicrophoneButton(microphone);
    }

    method UpdateLocationButton(location: LocationStatus)
      modifies this`locationButton
      ensures locationButton == LocationButton(location)
    {
      locationButton := LocationButton(location);
    }

    /** Loading the view, and returning to the foreground, refresh both buttons. */
    method RefreshButtons(location: LocationStatus, microphone: MicrophonePermission)
      modifies this`microphoneButton, this`locationButton
      ensures microphoneButton == MicrophoneButton(microphone)
      ensures locationButton == LocationButton(location)
      ensures !microphoneButton.isEnabled && !locationButton.isEnabled
              <==> AreRequiredPermissionsGranted(location, microphone)
    {
      UpdateMicrophoneButton(microphone);
      UpdateLocationButton(location);
      GrantedIffBothButtonsDisabled(location, microphone);
    }

    /** The microphone button was tapped: the side effect to perform. */
    method MicrophoneButtonTapped(microphone: MicrophonePermission) returns (action: TapAction)
      ensures action == MicrophoneTapAction(microphone)
    {
      action := MicrophoneTapAction(microphone);
    }

    /** The location button was tapped: the side effect to perform. */
    method LocationButtonTapped(location: LocationStatus) returns (action: TapAction)
      ensures action == LocationTapAction(location)
    {
      action := LocationTapAction(location);
    }

    /** The answer to the microphone request arrived: refresh the microphone
        button and tell the delegate iff every required permission is now granted. */
    method MicrophoneAccessAnswered(location: LocationStatus, microphone: MicrophonePermission)
      modifies this`microphoneButton, this`permissionsObtainedReports
      ensures microphoneButton == MicrophoneButton(microphone)
      ensures permissionsObtainedReports
              == old(permissionsObtainedReports) + if AreRequiredPermissionsGranted(location, microphone) then 1 else 0
    {
      UpdateMicrophoneButton(microphone);
      if AreRequiredPermissionsGranted(location, microphone) {
        permissionsObtainedReports := permissionsObtainedReports + 1;
      }
    }

    /** The location authorization changed: refresh the location button and
        tell the delegate iff every required permission is now granted. */
    method LocationAuthorizationChanged(location: LocationStatus, microphone: MicrophonePermission)
      modifies this`locationButton, this`permissionsObtainedReports
      ensures locationButton == LocationButton(location)
      ensures permissionsObtainedReports
              == old(permissionsObtainedReports) + if AreRequiredPermissionsGranted(location, microphone) then 1 else 0
    {
      UpdateLocationButton(location);
      if AreRequiredPermissionsGranted(location, microphone) {
        permissionsObtainedReports := permissionsObtainedReports + 1;
      }
    }
  }
}
