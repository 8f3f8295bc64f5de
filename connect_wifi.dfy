/** The Wi-Fi screen: the user taps one of the networks the device can see; an
    open network is joined at once, a secured one needs a password (from the
    native prompt on iOS, from a modal elsewhere). After a successful connect the
    device's profile decides whether blink entry comes next. */
module ConnectWifi {
  import opened Flow

  /** The access point's authentication mode; every mode but `Open` needs a
      password. */
  datatype AuthMode = Open | Secured(mode: string)

  datatype WifiNetwork = WifiNetwork(ssid: string, auth: AuthMode)

  datatype Platform = IOS | OtherPlatform

  const ConnectFailedMessage := "Failed to connect to WiFi"

  /** A network's row shows a lock icon. */
  function ShowsLock(w: WifiNetwork): (locked: bool)
    ensures locked <==> w.auth != Open
  {
    w.auth != Open
  }

  /** `checkDeviceType`: where the device lookup sends the user. */
  function DeviceTypeRoute(deviceId: string, lookup: DeviceLookup): (eff: Effect)
    ensures lookup.LookupFailed? ==> eff == ShowAlert("Error", "Error getting device info")
    ensures lookup.Found? ==>
              && eff.Navigate?
              && eff.params == Some(deviceId)
              && (eff.target == BLINKS_PER_KWH <==> lookup.profile == 1 || lookup.profile == 2)
              && (eff.target == ONBOARDING_WAIT <==> lookup.profile != 1 && lookup.profile != 2)
  {
    match lookup
    case LookupFailed => ShowAlert("Error", "Error getting device info")
    case Found(profile) =>
      if profile == 1 || profile == 2 then Navigate(BLINKS_PER_KWH, Some(deviceId))
      else Navigate(ONBOARDING_WAIT, Some(deviceId))
  }

  /** What follows a connect attempt: the device-type check after success, an
      alert after failure. */
  function ConnectSettledEffect(deviceId: string, ok: bool): (eff: Effect)
    ensures eff == RequestGetDevice(deviceId) <==> ok
    ensures !ok ==> eff == ShowAlert("Error", "Failed to connect to WiFi")
  {
    if ok then RequestGetDevice(deviceId) else ShowAlert("Error", ConnectFailedMessage)
  }

  class ConnectWifiScreen {
    const deviceId: string
    var availableWifi: seq<WifiNetwork>
    var showPasswordModal: bool
    var selectedWifi: Option<WifiNetwork>
    var wifiPassword: string

    /** While the password modal is open a network is selected. */
    predicate Valid()
      reads this
    {
      showPasswordModal ==> selectedWifi.Some?
    }

    /** The modal is closed and holds nothing. */
    predicate ModalReset()
      reads this
    {
      !showPasswordModal && wifiPassword == "" && selectedWifi == None
    }

    constructor (deviceId: string)
      ensures this.deviceId == deviceId && availableWifi == [] && ModalReset() && Valid()
    {
      this.deviceId := deviceId;
      availableWifi := [];
      showPasswordModal := false;
      selectedWifi := None;
      wifiPassword := "";
    }

    /** The scan for networks has answered. */
    method OnWifiList(list: seq<WifiNetwork>)
      requires Valid()
      modifies this`availableWifi
      ensures Valid() && availableWifi == list
    {
      availableWifi := list;
    }

    /** `onTap` on a network's row. */
    method Tap(w: WifiNetwork, platform: Platform) returns (eff: Effect)
      requires Valid()
      modifies this`selectedWifi, this`showPasswordModal
      ensures Valid()
      ensures !ShowsLock(w) <==> eff == RequestConnectToWiFi(deviceId, w.ssid, "")
      ensures w.auth == Open ==>
                eff == RequestConnectToWiFi(deviceId, w.ssid, "") && unchanged(this)
      ensures w.auth != Open && platform == IOS ==>
                eff == RequestPasswordPrompt(w.ssid) && unchanged(this)
      ensures w.auth != Open && platform != IOS ==>
                eff == NoEffect && selectedWifi == Some(w) && showPasswordModal
    {
      if w.auth == Open {
        eff := RequestConnectToWiFi(deviceId, w.ssid, "");
      } else if platform == IOS {
        eff := RequestPasswordPrompt(w.ssid);
      } else {
        selectedWifi := Some(w);
        showPasswordModal := true;
        eff := NoEffect;
      }
    }

    /** The native prompt returned `password` for the tapped network. */
    method OnPromptAnswered(w: WifiNetwork, password: string) returns (eff: Effect)
      ensures eff == RequestConnectToWiFi(deviceId, w.ssid, password)
    {
      eff := RequestConnectToWiFi(deviceId, w.ssid, password);
    }

    /** A connect started from a tap or from the native prompt has settled; the
        modal state is left alone. */
    method OnDirectConnectSettled(ok: bool) returns (eff: Effect)
      ensures eff.RequestGetDevice? <==> ok
      ensures eff == ConnectSettledEffect(deviceId, ok)
    {
      if ok {
        eff := RequestGetDevice(deviceId);
      } else {
        eff := ShowAlert("Error", ConnectFailedMessage);
      }
    }

    method EnterPassword(text: string)
      requires Valid()
      modifies this`wifiPassword
      ensures Valid() && wifiPassword == text
    {
      wifiPassword := text;
    }

    /** The modal's Connect button: nothing without a selection, otherwise a
        connect to the selected network with the typed password. */
    method PressConnect() returns (eff: Effect)
      requires Valid()
      ensures showPasswordModal ==> eff.RequestConnectToWiFi?
      ensures selectedWifi.None? ==> eff == NoEffect
      ensures selectedWifi.Some? ==> eff == RequestConnectToWiFi(deviceId, selectedWifi.value.ssid, wifiPassword)
    {
      if selectedWifi.Some? {
        eff := RequestConnectToWiFi(deviceId, selectedWifi.value.ssid, wifiPassword);
      } else {
        eff := NoEffect;
      }
    }

    /** A connect started from the modal has settled: either way the modal is
        closed and cleared. */
    method OnModalConnectSettled(ok: bool) returns (eff: Effect)
      requires Valid()
      modifies this`showPasswordModal, this`wifiPassword, this`selectedWifi
      ensures Valid() && ModalReset()
      ensures eff == ConnectSettledEffect(deviceId, ok)
    {
      showPasswordModal := false;
      wifiPassword := "";
      selectedWifi := None;
      if ok {
        eff := RequestGetDevice(deviceId);
      } else {
        eff := ShowAlert("Error", ConnectFailedMessage);
      }
    }

    /** The modal's Cancel button. */
    method PressCancel()
      requires Valid()
      modifies this`showPasswordModal, this`wifiPassword, this`selectedWifi
      ensures Valid() && ModalReset()
    {
      showPasswordModal := false;
      wifiPassword := "";
      selectedWifi := None;
    }

    /** The system's request to close the modal (the back button): the modal
        hides but keeps its selection and password. */
    method RequestClose()
      requires Valid()
      modifies this`showPasswordModal
      ensures Valid() && !showPasswordModal
    {
      showPasswordModal := false;
    }

    /** The device lookup issued after a successful connect has answered. */
    method OnDeviceLookup(lookup: DeviceLookup) returns (eff: Effect)
      ensures lookup.Found? ==> eff.Navigate? && eff.params == Some(deviceId)
      ensures eff == DeviceTypeRoute(deviceId, lookup)
    {
      match lookup {
        case LookupFailed =>
          eff := ShowAlert("Error", "Error getting device info");
        case Found(profile) =>
          if profile == 1 || profile == 2 {
            eff := Navigate(BLINKS_PER_KWH, Some(deviceId));
          } else {
            eff := Navigate(ONBOARDING_WAIT, Some(deviceId));
          }
      }
    }
  }

  /** Navigation away from this screen needs a successful connect followed by a
      successful device lookup: no other answer produces one. */
  lemma NavigationNeedsConnectAndLookup(deviceId: string, ok: bool, lookup: DeviceLookup)
    ensures !ConnectSettledEffect(deviceId, ok).Navigate?
    ensures DeviceTypeRoute(deviceId, lookup).Navigate? <==> lookup.Found?
  {
  }

  /** The two profiles with a blink sensor go to blink entry; every other
      profile, including the key-based ones, goes straight to the wait screen. */
  lemma ProfileRoutes(deviceId: string)
    ensures DeviceTypeRoute(deviceId, Found(1)) == Navigate(BLINKS_PER_KWH, Some(deviceId))
    ensures DeviceTypeRoute(deviceId, Found(2)) == Navigate(BLINKS_PER_KWH, Some(deviceId))
    ensures forall p :: p != 1 && p != 2 ==> DeviceTypeRoute(deviceId, Found(p)) == Navigate(ONBOARDING_WAIT, Some(deviceId))
  {
  }
}
