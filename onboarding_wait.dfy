/** The "Finishing setup" screen: it polls the onboarding session of one device,
    classifies the error code of an `ErrorMessages` snapshot against a fixed
    table, and either navigates, records the error for display, or polls again. */
module OnboardingWait {
  import opened Flow

  /** One entry of the error table: the text shown, whether the flow may go on,
      and the screen to open instead of showing anything. */
  datatype DeviceError = DeviceError(errorCode: string, errorMessage: string, canContinue: bool, pushToPage: Option<Screen>)

  const InvalidMessageText := "Invalid message received from meter. If the error persists it could be a connection or hardware issue."
  const ContactSupportText := "Couldn't read data from meter. Contact customer support."

  /** The sixteen known error codes, in the order the screen searches them. */
  const PossibleErrors: seq<DeviceError> := [
    DeviceError("DecryptionError", "", false, Some(ENCRYPTION_KEY)),
    DeviceError("AuthenticationFailure", "", false, Some(ENCRYPTION_KEY)),
    DeviceError("ACKError", "Error connecting to the device. Try reconnecting the device to the meter.", true, None),
    DeviceError("Timeout", "No response from meter. The port might be closed or the device is not properly connected.", true, None),
    DeviceError("LengthMismatch", InvalidMessageText, true, None),
    DeviceError("SequenceError", InvalidMessageText, true, None),
    DeviceError("InvalidData", InvalidMessageText, true, None),
    DeviceError("CRCError", "Invalid data received from meter. Try removing the splitter if you're using one.", true, None),
    DeviceError("IdentificationError", "Error communicating with the meter. If the error persists contact customer support.", true, None),
    DeviceError("NegotiateError", "The device had trouble negotiating with the meter. Try adjusting the placement of the device.", false, None),
    DeviceError("LogonError", "Error while communicating with the meter. If the error persists it could be a hardware issue.", true, None),
    DeviceError("SecurityError", "", false, Some(ENCRYPTION_KEY)),
    DeviceError("ReadError", "Error reading data from the meter.", true, None),
    DeviceError("InvalidDeviceID", ContactSupportText, false, None),
    DeviceError("InitializationError", ContactSupportText, false, None),
    DeviceError("AssociationError", ContactSupportText, false, None)
  ]

  /** What an unknown code is shown as. */
  const GenericError := DeviceError("GenericError", "An error occurred. Please try again.", false, None)

  /** The codes whose entry opens another screen. */
  const RedirectCodes: set<string> := {"DecryptionError", "AuthenticationFailure", "SecurityError"}

  /** The codes after which the device may still finish onboarding. */
  const ContinuableCodes: set<string> := {
    "ACKError", "Timeout", "LengthMismatch", "SequenceError", "InvalidData",
    "CRCError", "IdentificationError", "LogonError", "ReadError"
  }

  /** The codes that neither redirect nor continue. */
  const FatalCodes: set<string> := {"NegotiateError", "InvalidDeviceID", "InitializationError", "AssociationError"}

  const AllCodes: set<string> := RedirectCodes + ContinuableCodes + FatalCodes

  predicate IsKnownCode(code: string)
  {
    exists i :: 0 <= i < |PossibleErrors| && PossibleErrors[i].errorCode == code
  }

  /** `Array.prototype.find` on the error code: the first entry carrying `code`. */
  function Find(table: seq<DeviceError>, code: string): (r: Option<DeviceError>)
    ensures r.None? <==> forall i :: 0 <= i < |table| ==> table[i].errorCode != code
    ensures r.Some? ==> exists i :: 0 <= i < |table| && table[i] == r.value && r.value.errorCode == code
                                    && forall j :: 0 <= j < i ==> table[j].errorCode != code
  {
    if table == [] then None
    else if table[0].errorCode == code then Some(table[0])
    else
      var r := Find(table[1..], code);
      assert forall i :: 1 <= i < |table| ==> table[i] == table[1..][i - 1];
      r
  }

  /** The entry shown for `code`: its table entry, or the generic one. */
  function Classify(code: string): (e: DeviceError)
    ensures IsKnownCode(code) ==> e in PossibleErrors && e.errorCode == code
    ensures !IsKnownCode(code) ==> e == GenericError
  {
    match Find(PossibleErrors, code)
    case None => GenericError
    case Some(e) => e
  }

  /** `handleError`: the error kept for display and the effect, given the error
      currently kept. */
  function ErrorTransition(error: Option<DeviceError>, deviceId: string, code: string): (r: (Option<DeviceError>, Effect))
    ensures r.1 == NoEffect || r.1 == Navigate(ENCRYPTION_KEY, Some(deviceId))
    ensures r.1.Navigate? ==> r.0 == error && Classify(code).pushToPage.Some?
    ensures r.1 == NoEffect ==> r.0 == Some(Classify(code)) && Classify(code).pushToPage.None?
  {
    RedirectingCodes(code);
    var e := Classify(code);
    if e.pushToPage.Some? then (error, Navigate(e.pushToPage.value, Some(deviceId)))
    else (Some(e), NoEffect)
  }

  /** The display state of the screen. */
  datatype WaitState = WaitState(status: SessionStatus, error: Option<DeviceError>)

  const InitialWaitState := WaitState(OtherStatus(""), None)

  /** One `poll`: the new display state and the effect, for one answer of the
      session query. */
  function PollTransition(st: WaitState, deviceId: string, q: QueryResult): (r: (WaitState, Effect))
    ensures q.Rejected? ==> r == (st, NoEffect)
    ensures q.Resolved? ==> r.0.status == q.snapshot.status
    ensures r.1 == Navigate(MAIN, None) <==> q.Resolved? && q.snapshot.status == Done
    ensures r.1 == SchedulePoll(PollIntervalMs) <==>
              q.Resolved? && q.snapshot.status != Done && !(q.snapshot.status == ErrorMessages && HasErrorCode(q.snapshot))
    ensures r.0.error != st.error ==>
              q.Resolved? && q.snapshot.status == ErrorMessages && HasErrorCode(q.snapshot)
              && r.0.error == Some(Classify(q.snapshot.errorCode.value))
    ensures !KeepsPolling(r.1) || r.1 == SchedulePoll(PollIntervalMs)
  {
    match q
    case Rejected => (st, NoEffect)
    case Resolved(res) =>
      var st' := st.(status := res.status);
      if res.status == Done then (st', Navigate(MAIN, None))
      else if res.status == ErrorMessages && HasErrorCode(res) then
        var (error', eff) := ErrorTransition(st.error, deviceId, res.errorCode.value);
        (st'.(error := error'), eff)
      else (st', SchedulePoll(PollIntervalMs))
  }

  /** Consecutive polls fed the query answers `qs`, until one does not schedule
      another: the final state and the effect of each poll. */
  function Run(st: WaitState, deviceId: string, qs: seq<QueryResult>): (r: (WaitState, seq<Effect>))
    ensures |r.1| <= |qs|
    ensures qs != [] ==> r.1 != []
    ensures forall i :: 0 <= i < |r.1| - 1 ==> r.1[i] == SchedulePoll(PollIntervalMs)
    ensures |r.1| < |qs| ==> r.1[|r.1| - 1] != SchedulePoll(PollIntervalMs)
    decreases |qs|
  {
    if qs == [] then (st, [])
    else
      var (st', e) := PollTransition(st, deviceId, qs[0]);
      if e == SchedulePoll(PollIntervalMs) then
        var (fin, es) := Run(st', deviceId, qs[1..]);
        (fin, [e] + es)
      else (st', [e])
  }

  /** Which widgets the screen shows. */
  datatype View = View(firmwareWidget: bool, errorBox: bool, waitingText: bool)

  function Render(st: WaitState): (v: View)
    ensures v.firmwareWidget <==> st.status == FirmwareUpdateInProgress
    ensures v.errorBox <==> st.status != FirmwareUpdateInProgress && st.error.Some?
    ensures !(v.firmwareWidget && v.errorBox)
    ensures v.waitingText <==> st.error.None?
  {
    var firmware := st.status == FirmwareUpdateInProgress;
    View(firmware, !firmware && st.error.Some?, st.error.None?)
  }

  // ---------------------------------------------------------------------------
  // Properties of the error table

  lemma TableCodesDistinct()
    ensures |PossibleErrors| == 16
    ensures forall i, j :: 0 <= i < j < |PossibleErrors| ==> PossibleErrors[i].errorCode != PossibleErrors[j].errorCode
  {
  }

  /** Looking up a table code gives exactly that code's entry. */
  lemma ClassifyTableEntry(i: nat)
    requires i < |PossibleErrors|
    ensures Classify(PossibleErrors[i].errorCode) == PossibleErrors[i]
  {
    TableCodesDistinct();
    var code := PossibleErrors[i].errorCode;
    var r := Find(PossibleErrors, code);
    assert r.Some?;
    var k :| 0 <= k < |PossibleErrors| && PossibleErrors[k] == r.value && r.value.errorCode == code;
    assert k == i;
  }

  /** An unknown code is shown as the generic fatal error. */
  lemma UnknownCodeIsGeneric(code: string)
    requires !IsKnownCode(code)
    ensures Classify(code) == DeviceError("GenericError", "An error occurred. Please try again.", false, None)
  {
  }

  /** What the table says of each of its entries, spelled out per code set. */
  lemma EntryFacts()
    ensures forall i :: 0 <= i < |PossibleErrors| ==>
              && PossibleErrors[i].errorCode in AllCodes
              && (PossibleErrors[i].pushToPage.Some? <==> PossibleErrors[i].errorCode in RedirectCodes)
              && (PossibleErrors[i].pushToPage.Some? ==>
                    PossibleErrors[i] == DeviceError(PossibleErrors[i].errorCode, "", false, Some(ENCRYPTION_KEY)))
              && (PossibleErrors[i].canContinue <==> PossibleErrors[i].errorCode in ContinuableCodes)
  {
  }

  lemma ListedCodeIsKnown(code: string)
    requires code in AllCodes
    ensures IsKnownCode(code)
  {
    if code == "DecryptionError" {
      assert PossibleErrors[0].errorCode == code;
    } else if code == "AuthenticationFailure" {
      assert PossibleErrors[1].errorCode == code;
    } else if code == "ACKError" {
      assert PossibleErrors[2].errorCode == code;
    } else if code == "Timeout" {
      assert PossibleErrors[3].errorCode == code;
    } else if code == "LengthMismatch" {
      assert PossibleErrors[4].errorCode == code;
    } else if code == "SequenceError" {
      assert PossibleErrors[5].errorCode == code;
    } else if code == "InvalidData" {
      assert PossibleErrors[6].errorCode == code;
    } else if code == "CRCError" {
      assert PossibleErrors[7].errorCode == code;
    } else if code == "IdentificationError" {
      assert PossibleErrors[8].errorCode == code;
    } else if code == "NegotiateError" {
      assert PossibleErrors[9].errorCode == code;
    } else if code == "LogonError" {
      assert PossibleErrors[10].errorCode == code;
    } else if code == "SecurityError" {
      assert PossibleErrors[11].errorCode == code;
    } else if code == "ReadError" {
      assert PossibleErrors[12].errorCode == code;
    } else if code == "InvalidDeviceID" {
      assert PossibleErrors[13].errorCode == code;
    } else if code == "InitializationError" {
      assert PossibleErrors[14].errorCode == code;
    } else if code == "AssociationError" {
      assert PossibleErrors[15].errorCode == code;
    }
  }

  /** The known codes are exactly the sixteen listed codes. */
  lemma KnownCodes(code: string)
    ensures IsKnownCode(code) <==> code in AllCodes
  {
    if IsKnownCode(code) {
      EntryFacts();
    } else if code in AllCodes {
      ListedCodeIsKnown(code);
    }
  }

  /** Exactly three codes redirect, all to the key screen, with no message and
      no continuation. */
  lemma RedirectingCodes(code: string)
    ensures Classify(code).pushToPage.Some? <==> code in RedirectCodes
    ensures Classify(code).pushToPage.Some? ==>
              Classify(code) == DeviceError(code, "", false, Some(ENCRYPTION_KEY))
  {
    KnownCodes(code);
    if IsKnownCode(code) {
      var i :| 0 <= i < |PossibleErrors| && PossibleErrors[i].errorCode == code;
      ClassifyTableEntry(i);
      EntryFacts();
    }
  }

  /** Exactly nine codes let the flow continue. */
  lemma ContinuableCodesExactly(code: string)
    ensures Classify(code).canContinue <==> code in ContinuableCodes
  {
    KnownCodes(code);
    if IsKnownCode(code) {
      var i :| 0 <= i < |PossibleErrors| && PossibleErrors[i].errorCode == code;
      ClassifyTableEntry(i);
      EntryFacts();
    }
  }

  /** A redirecting code navigates with the same device and keeps the current
      error; any other table code becomes the displayed error. */
  lemma HandleTableCode(error: Option<DeviceError>, deviceId: string, i: nat)
    requires i < |PossibleErrors|
    ensures var e := PossibleErrors[i];
            ErrorTransition(error, deviceId, e.errorCode) ==
              if e.pushToPage.Some? then (error, Navigate(ENCRYPTION_KEY, Some(deviceId))) else (Some(e), NoEffect)
  {
    ClassifyTableEntry(i);
    RedirectingCodes(PossibleErrors[i].errorCode);
  }

  // ---------------------------------------------------------------------------
  // Properties of the poll loop

  /** Every classified error ends the loop, even one the flow may continue after. */
  lemma ClassifiedErrorStopsPolling(st: WaitState, deviceId: string, code: string)
    requires code != ""
    ensures var r := PollTransition(st, deviceId, Resolved(Snapshot(ErrorMessages, Some(code))));
            !KeepsPolling(r.1) && (Classify(code).canContinue ==> r.1 == NoEffect && r.0.error == Some(Classify(code)))
  {
    RedirectingCodes(code);
  }

  /** A credential code opens the key screen for the same device; the poll
      records the status and keeps the error it held. */
  lemma RedirectCodeOpensKeyScreen(st: WaitState, deviceId: string, code: string)
    requires code in RedirectCodes
    ensures PollTransition(st, deviceId, Resolved(Snapshot(ErrorMessages, Some(code)))) ==
              (st.(status := ErrorMessages), Navigate(ENCRYPTION_KEY, Some(deviceId)))
  {
    RedirectingCodes(code);
  }

  /** Any other non-empty code, known or not, becomes the displayed error and
      ends the loop without navigating. */
  lemma OtherCodeIsShown(st: WaitState, deviceId: string, code: string)
    requires code != "" && code !in RedirectCodes
    ensures PollTransition(st, deviceId, Resolved(Snapshot(ErrorMessages, Some(code)))) ==
              (WaitState(ErrorMessages, Some(Classify(code))), NoEffect)
  {
    RedirectingCodes(code);
  }

  /** The loop navigates to the main screen exactly at a `Done` answer. */
  lemma {:induction false} MainOnlyOnDone(st: WaitState, deviceId: string, qs: seq<QueryResult>)
    ensures var es := Run(st, deviceId, qs).1;
            forall i :: 0 <= i < |es| ==>
              (es[i] == Navigate(MAIN, None) <==> qs[i].Resolved? && qs[i].snapshot.status == Done)
    decreases |qs|
  {
    if qs != [] {
      var (st', e) := PollTransition(st, deviceId, qs[0]);
      if e == SchedulePoll(PollIntervalMs) {
        MainOnlyOnDone(st', deviceId, qs[1..]);
        var es := Run(st', deviceId, qs[1..]).1;
        assert Run(st, deviceId, qs).1 == [e] + es;
        assert forall i :: 1 <= i < |es| + 1 ==> qs[i] == qs[1..][i - 1];
      }
    }
  }

  /** A `Done` answer navigates once and nothing is polled after it, whatever
      answers would have followed. */
  lemma DoneNavigatesOnce(st: WaitState, deviceId: string, code: Option<string>, rest: seq<QueryResult>)
    ensures Run(st, deviceId, [Resolved(Snapshot(Done, code))] + rest) ==
              (st.(status := Done), [Navigate(MAIN, None)])
  {
  }

  // ---------------------------------------------------------------------------
  // The screen

  class OnboardingWaitScreen {
    const deviceId: string
    var status: SessionStatus
    var error: Option<DeviceError>

    function State(): WaitState
      reads this
    {
      WaitState(status, error)
    }

    constructor (deviceId: string)
      ensures this.deviceId == deviceId && State() == InitialWaitState
    {
      this.deviceId := deviceId;
      status := OtherStatus("");
      error := None;
    }

    /** `handleError`. */
    method HandleError(code: string) returns (eff: Effect)
      modifies this`error
      ensures (error, eff) == ErrorTransition(old(error), deviceId, code)
    {
      var e := Classify(code);
      if e.pushToPage.Some? {
        eff := Navigate(e.pushToPage.value, Some(deviceId));
      } else {
        error := Some(e);
        eff := NoEffect;
      }
    }

    /** `poll`, once the session query has answered `q`. */
    method Poll(q: QueryResult) returns (eff: Effect)
      modifies this
      ensures (State(), eff) == PollTransition(old(State()), deviceId, q)
    {
      match q {
        case Rejected =>
          eff := NoEffect;
        case Resolved(res) =>
          status := res.status;
          if res.status == Done {
            eff := Navigate(MAIN, None);
          } else if res.status == ErrorMessages && HasErrorCode(res) {
            eff := HandleError(res.errorCode.value);
          } else {
            eff := SchedulePoll(PollIntervalMs);
          }
      }
    }

    /** The self-rescheduling loop: polls with the answers `qs` for as long as
        each poll schedules the next one. */
    method PollUntilStopped(qs: seq<QueryResult>) returns (effects: seq<Effect>)
      modifies this
      ensures (State(), effects) == Run(old(State()), deviceId, qs)
    {
      effects := [];
      ghost var start := State();
      var k := 0;
      assert qs[k..] == qs;
      assert effects + Run(start, deviceId, qs).1 == Run(start, deviceId, qs).1;
      while k < |qs|
        invariant 0 <= k <= |qs|
        invariant Run(start, deviceId, qs) ==
                    (Run(State(), deviceId, qs[k..]).0, effects + Run(State(), deviceId, qs[k..]).1)
      {
        ghost var before := State();
        ghost var done := effects;
        assert Run(start, deviceId, qs) ==
                 (Run(before, deviceId, qs[k..]).0, done + Run(before, deviceId, qs[k..]).1);
        var eff := Poll(qs[k]);
        assert qs[k..][0] == qs[k] && qs[k..][1..] == qs[k + 1..];
        effects := effects + [eff];
        if eff != SchedulePoll(PollIntervalMs) {
          assert Run(before, deviceId, qs[k..]) == (State(), [eff]);
          return;
        }
        ghost var rest := Run(State(), deviceId, qs[k + 1..]);
        assert Run(before, deviceId, qs[k..]) == (rest.0, [eff] + rest.1);
        assert done + ([eff] + rest.1) == effects + rest.1;
        k := k + 1;
      }
      assert qs[k..] == [] && effects + [] == effects;
    }
  }
}
