/** Vocabulary shared by the onboarding screens: the navigator's screen names,
    the onboarding-session snapshot the SDK returns, the outcome of a device
    lookup, and the effects a screen hands back to its host (navigation, timers,
    callbacks, alerts and SDK requests). Nothing here talks to the outside world:
    every SDK answer and every clock reading is an input of some step. */
module Flow {

  datatype Option<T> = None | Some(value: T)

  /** The screens of the main navigator, named as in the app's enum. */
  datatype Screen =
    | HOME
    | QR
    | PAIR
    | CONNECT_WIFI
    | BLINKS_PER_KWH
    | ONBOARDING_WAIT
    | ENCRYPTION_KEY
    | MAIN
    | HISTORY
    | REALTIME
    | DEVICE_SETTINGS

  /** Delay between two session polls, in milliseconds. */
  const PollIntervalMs: nat := 2000

  /** Status of a device onboarding session. Only the three values the screens
      compare against are named; every other value the SDK may report is
      `OtherStatus`. */
  datatype SessionStatus =
    | Done
    | ErrorMessages
    | FirmwareUpdateInProgress
    | OtherStatus(name: string)

  /** One answer of the session query: a status and an optional error code. */
  datatype Snapshot = Snapshot(status: SessionStatus, errorCode: Option<string>)

  /** A session query either resolves with a snapshot or is rejected. */
  datatype QueryResult = Resolved(snapshot: Snapshot) | Rejected

  /** A JavaScript truthiness test on the optional error code: present and non-empty. */
  predicate HasErrorCode(s: Snapshot)
  {
    s.errorCode.Some? && s.errorCode.value != ""
  }

  /** Outcome of `getDeviceById`: the device's type profile, or a rejection. */
  datatype DeviceLookup = Found(profile: int) | LookupFailed

  /** What a handler asks its host to do once it returns. */
  datatype Effect =
    | NoEffect
      /** `navigation.navigate(target, { deviceId: params })`; `None` when no parameters are passed */
    | Navigate(target: Screen, params: Option<string>)
      /** `setTimeout(poll, delayMs)` */
    | SchedulePoll(delayMs: nat)
      /** the polling effect re-runs: the pending timer is cleared and a poll is issued at once */
    | PollAgain
    | CallOnDone
    | CallOnTimeout
    | ShowAlert(title: string, message: string)
    | RequestSetEncryptionKey(deviceId: string, mepKey: string, gpk60Key: string, gpk61Key: string, opticalKey: string)
    | RequestConnectToWiFi(deviceId: string, ssid: string, password: string)
      /** the platform's native password prompt for `ssid` */
    | RequestPasswordPrompt(ssid: string)
    | RequestGetDevice(deviceId: string)
    | RequestSetBlinksPerKwh(deviceId: string, value: real)

  /** The effects after which a poll loop is still alive. */
  predicate KeepsPolling(e: Effect)
  {
    e.SchedulePoll? || e.PollAgain?
  }
}
