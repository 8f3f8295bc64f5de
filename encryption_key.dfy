/** The encryption-key screen: the device's profile chooses which key fields are
    shown, each key field is checked for length when it loses focus, Continue
    sends every held key, and a waiter then polls the onboarding session until
    it is done or a decryption error has lasted too long. */
module EncryptionKey {
  import opened Flow

  const MepKeyLength: nat := 20
  const GpkKeyLength: nat := 32
  /** How long a `DecryptionError` may persist before the waiter gives up, in ms. */
  const DecryptionTimeoutMs: int := 180000
  const DecryptionErrorCode := "DecryptionError"

  const MepKeyLengthMessage := "MEP key must be exactly 20 characters long"
  const Gpk60LengthMessage := "GPK60 key must be exactly 32 characters long"
  const Gpk61LengthMessage := "GPK61 key must be exactly 32 characters long"

  // ---------------------------------------------------------------------------
  // Key entry

  datatype KeyField = OpticalKey | MepKey | Gpk60Key | Gpk61Key

  /** The key fields rendered for the device profile (`None` while the device
      has not been fetched). Each sub-form has its own condition. */
  function VisibleKeyFields(profile: Option<int>): (fs: set<KeyField>)
    ensures fs == {} || fs == {OpticalKey} || fs == {MepKey} || fs == {Gpk60Key, Gpk61Key}
    ensures OpticalKey in fs <==> profile == Some(4)
    ensures MepKey in fs <==> profile == Some(5)
    ensures Gpk60Key in fs <==> profile == Some(6)
    ensures Gpk61Key in fs <==> profile == Some(6)
  {
    (if profile == Some(4) then {OpticalKey} else {})
    + (if profile == Some(5) then {MepKey} else {})
    + (if profile == Some(6) then {Gpk60Key, Gpk61Key} else {})
  }

  /** The message a key field shows after losing focus: `message` unless the key
      has exactly `length` characters, in which case none. */
  function LengthCheck(key: string, length: nat, message: string): (shown: string)
    requires message != ""
    ensures shown == "" <==> |key| == length
    ensures shown != "" ==> shown == message
  {
    if |key| != length then message else ""
  }

  function MepBlurMessage(key: string): (shown: string)
    ensures shown == "" <==> |key| == 20
    ensures shown != "" ==> shown == "MEP key must be exactly 20 characters long"
  {
    LengthCheck(key, MepKeyLength, MepKeyLengthMessage)
  }

  function Gpk60BlurMessage(key: string): (shown: string)
    ensures shown == "" <==> |key| == 32
    ensures shown != "" ==> shown == "GPK60 key must be exactly 32 characters long"
  {
    LengthCheck(key, GpkKeyLength, Gpk60LengthMessage)
  }

  function Gpk61BlurMessage(key: string): (shown: string)
    ensures shown == "" <==> |key| == 32
    ensures shown != "" ==> shown == "GPK61 key must be exactly 32 characters long"
  {
    LengthCheck(key, GpkKeyLength, Gpk61LengthMessage)
  }

  class EncryptionKeyScreen {
    const deviceId: string
    var opticalKey: string
    var loading: bool
    var deviceProfile: Option<int>
    var mepKey: string
    var gpk60Key: string
    var gpk61Key: string
    var showWaitWidget: bool
    // The messages held by the key widgets.
    var mepError: string
    var gpk60Error: string
    var gpk61Error: string

    constructor (deviceId: string)
      ensures this.deviceId == deviceId
      ensures opticalKey == "" && mepKey == "" && gpk60Key == "" && gpk61Key == ""
      ensures !loading && !showWaitWidget && deviceProfile == None
      ensures mepError == "" && gpk60Error == "" && gpk61Error == ""
    {
      this.deviceId := deviceId;
      opticalKey, mepKey, gpk60Key, gpk61Key := "", "", "", "";
      loading, showWaitWidget := false, false;
      deviceProfile := None;
      mepError, gpk60Error, gpk61Error := "", "", "";
    }

    /** The device lookup started when the screen opens has answered. */
    method OnDeviceLookup(lookup: DeviceLookup) returns (eff: Effect)
      modifies this`deviceProfile
      ensures lookup.Found? ==> deviceProfile == Some(lookup.profile) && eff == NoEffect
      ensures lookup.LookupFailed? ==>
                deviceProfile == old(deviceProfile) && eff == ShowAlert("Error", "Failed to get device information")
    {
      match lookup {
        case Found(profile) =>
          deviceProfile := Some(profile);
          eff := NoEffect;
        case LookupFailed =>
          eff := ShowAlert("Error", "Failed to get device information");
      }
    }

    /** Typing into a key field replaces that key and nothing else. */
    method EnterKey(field: KeyField, text: string)
      modifies this`opticalKey, this`mepKey, this`gpk60Key, this`gpk61Key
      ensures opticalKey == (if field == OpticalKey then text else old(opticalKey))
      ensures mepKey == (if field == MepKey then text else old(mepKey))
      ensures gpk60Key == (if field == Gpk60Key then text else old(gpk60Key))
      ensures gpk61Key == (if field == Gpk61Key then text else old(gpk61Key))
    {
      match field {
        case OpticalKey => opticalKey := text;
        case MepKey => mepKey := text;
        case Gpk60Key => gpk60Key := text;
        case Gpk61Key => gpk61Key := text;
      }
    }

    method BlurMepKey()
      requires MepKey in VisibleKeyFields(deviceProfile) && !showWaitWidget
      modifies this`mepError
      ensures mepError == MepBlurMessage(mepKey)
    {
      if |mepKey| != MepKeyLength {
        mepError := MepKeyLengthMessage;
      } else {
        mepError := "";
      }
    }

    /** Leaving the GPK60 field sets or clears its own message only. */
    method BlurGpk60Key()
      requires Gpk60Key in VisibleKeyFields(deviceProfile) && !showWaitWidget
      modifies this`gpk60Error
      ensures gpk60Error == Gpk60BlurMessage(gpk60Key)
    {
      if |gpk60Key| != GpkKeyLength {
        gpk60Error := Gpk60LengthMessage;
      } else {
        gpk60Error := "";
      }
    }

    /** Leaving the GPK61 field sets or clears its own message only. */
    method BlurGpk61Key()
      requires Gpk61Key in VisibleKeyFields(deviceProfile) && !showWaitWidget
      modifies this`gpk61Error
      ensures gpk61Error == Gpk61BlurMessage(gpk61Key)
    {
      if |gpk61Key| != GpkKeyLength {
        gpk61Error := Gpk61LengthMessage;
      } else {
        gpk61Error := "";
      }
    }

    /** `handleContinue`: ignored while a submission is in flight; otherwise
        sends all four keys, whatever the profile and the field messages. */
    method Continue() returns (eff: Effect)
      modifies this`loading
      ensures old(loading) ==> eff == NoEffect
      ensures !old(loading) ==> eff == RequestSetEncryptionKey(deviceId, mepKey, gpk60Key, gpk61Key, opticalKey)
      ensures loading
    {
      if loading {
        eff := NoEffect;
        return;
      }
      loading := true;
      eff := RequestSetEncryptionKey(deviceId, mepKey, gpk60Key, gpk61Key, opticalKey);
    }

    /** The key submission has settled, successfully or not. On success the
        waiter replaces the form, and the key widgets unmount with the
        messages they held. */
    method OnSubmitSettled(ok: bool) returns (eff: Effect)
      modifies this`showWaitWidget, this`loading, this`mepError, this`gpk60Error, this`gpk61Error
      ensures !loading
      ensures showWaitWidget == (ok || old(showWaitWidget))
      ensures eff == if ok then NoEffect else ShowAlert("Error", "Failed to set encryption key")
      ensures ok ==> mepError == "" && gpk60Error == "" && gpk61Error == ""
      ensures !ok ==> mepError == old(mepError) && gpk60Error == old(gpk60Error) && gpk61Error == old(gpk61Error)
    {
      if ok {
        showWaitWidget := true;
        mepError, gpk60Error, gpk61Error := "", "", "";
        eff := NoEffect;
      } else {
        eff := ShowAlert("Error", "Failed to set encryption key");
      }
      loading := false;
    }

    /** The waiter's `onTimeout`: back to key entry. The key widgets mount
        afresh, so none of them shows a length message; the typed keys are the
        screen's own state and survive. */
    method OnWaiterTimeout()
      modifies this`showWaitWidget, this`mepError, this`gpk60Error, this`gpk61Error
      ensures !showWaitWidget
      ensures mepError == "" && gpk60Error == "" && gpk61Error == ""
    {
      showWaitWidget := false;
      mepError, gpk60Error, gpk61Error := "", "", "";
    }

    /** The waiter's `onDone`. */
    method OnWaiterDone() returns (eff: Effect)
      ensures eff == Navigate(MAIN, None)
    {
      eff := Navigate(MAIN, None);
    }
  }

  // ---------------------------------------------------------------------------
  // The decryption-retry waiter

  predicate IsDecryptionError(q: QueryResult)
  {
    q.Resolved? && q.snapshot.status == ErrorMessages && q.snapshot.errorCode == Some(DecryptionErrorCode)
  }

  /** `decryptionErrorStart` as the waiter tests it: null and 0 both count as
      not recorded. */
  predicate IsRecorded(start: Option<int>)
  {
    start.Some? && start.value != 0
  }

  /** The effect of storing `next` as the recorded start: the polling effect
      depends on it, so a different value cancels the pending timer and polls
      at once; an equal value leaves the timer just armed in place. */
  function Rearm(start: Option<int>, next: Option<int>): (eff: Effect)
    ensures KeepsPolling(eff)
    ensures eff == PollAgain <==> next != start
    ensures next == start ==> eff == SchedulePoll(PollIntervalMs)
  {
    if next != start then PollAgain else SchedulePoll(PollIntervalMs)
  }

  /** One waiter poll: the new recorded start and the effect, for the query
      answer `q` received at time `now`. */
  function WaiterTransition(start: Option<int>, q: QueryResult, now: int): (r: (Option<int>, Effect))
    ensures r.1 == CallOnDone <==> q.Resolved? && q.snapshot.status == Done
    ensures r.1 == CallOnTimeout <==>
              IsDecryptionError(q) && IsRecorded(start) && now - start.value > DecryptionTimeoutMs
    ensures KeepsPolling(r.1) <==>
              || (q.Resolved? && q.snapshot.status != Done && q.snapshot.status != ErrorMessages)
              || (IsDecryptionError(q) && !(IsRecorded(start) && now - start.value > DecryptionTimeoutMs))
    ensures r.1 == NoEffect <==>
              q.Rejected? || (q.Resolved? && q.snapshot.status == ErrorMessages && !IsDecryptionError(q))
    ensures IsDecryptionError(q) && !IsRecorded(start) ==> r.0 == Some(now)
    ensures q.Resolved? && q.snapshot.status != Done && q.snapshot.status != ErrorMessages ==> r.0 == None
    ensures IsDecryptionError(q) && IsRecorded(start) ==> r.0 == start
    ensures !KeepsPolling(r.1) ==> r.0 == start
    ensures KeepsPolling(r.1) ==> r.1 == Rearm(start, r.0)
  {
    match q
    case Rejected => (start, NoEffect)
    case Resolved(res) =>
      if res.status == Done then (start, CallOnDone)
      else if res.status == ErrorMessages then
        if res.errorCode == Some(DecryptionErrorCode) then
          if !IsRecorded(start) then (Some(now), Rearm(start, Some(now)))
          else if now - start.value > DecryptionTimeoutMs then (start, CallOnTimeout)
          else (start, SchedulePoll(PollIntervalMs))
        else (start, NoEffect)
      else (None, Rearm(start, None))
  }

  /** A query answer and the clock reading when it arrives. */
  datatype Tick = Tick(answer: QueryResult, now: int)

  /** Consecutive waiter polls fed `ticks`, for as long as each one keeps the
      loop alive: the final recorded start and the effect of each poll. */
  function WaiterRun(start: Option<int>, ticks: seq<Tick>): (r: (Option<int>, seq<Effect>))
    ensures |r.1| <= |ticks|
    ensures ticks != [] ==> r.1 != []
    ensures forall i :: 0 <= i < |r.1| - 1 ==> KeepsPolling(r.1[i])
    ensures |r.1| < |ticks| ==> !KeepsPolling(r.1[|r.1| - 1])
    decreases |ticks|
  {
    if ticks == [] then (start, [])
    else
      var (start', e) := WaiterTransition(start, ticks[0].answer, ticks[0].now);
      if KeepsPolling(e) then
        var (fin, es) := WaiterRun(start', ticks[1..]);
        (fin, [e] + es)
      else (start', [e])
  }

  class EncryptionWaiter {
    const deviceId: string
    var decryptionErrorStart: Option<int>
    /** Set by the cleanup of the polling effect. */
    var cancelled: bool
    /** Whether a `setTimeout(poll, 2000)` is armed and not yet cleared. */
    var timerPending: bool

    constructor (deviceId: string)
      ensures this.deviceId == deviceId
      ensures decryptionErrorStart == None && !cancelled && !timerPending
    {
      this.deviceId := deviceId;
      decryptionErrorStart := None;
      cancelled, timerPending := false, false;
    }

    /** `poll`, once the session query has answered `q` at time `now`. An
        answer that arrives after cleanup changes nothing. */
    method OnAnswer(q: QueryResult, now: int) returns (eff: Effect)
      modifies this
      ensures old(cancelled) ==> eff == NoEffect && unchanged(this)
      ensures !old(cancelled) ==>
                && (decryptionErrorStart, eff) == WaiterTransition(old(decryptionErrorStart), q, now)
                && !cancelled
                && timerPending == (eff == SchedulePoll(PollIntervalMs))
    {
      if cancelled {
        eff := NoEffect;
        return;
      }
      timerPending := false;
      match q {
        case Rejected =>
          eff := NoEffect;
        case Resolved(res) =>
          if res.status == Done {
            eff := CallOnDone;
          } else if res.status == ErrorMessages {
            if res.errorCode == Some(DecryptionErrorCode) {
              if !IsRecorded(decryptionErrorStart) {
                eff := Rearm(decryptionErrorStart, Some(now));
                decryptionErrorStart := Some(now);
              } else if now - decryptionErrorStart.value > DecryptionTimeoutMs {
                eff := CallOnTimeout;
                return;
              } else {
                eff := SchedulePoll(PollIntervalMs);
              }
              timerPending := eff == SchedulePoll(PollIntervalMs);
            } else {
              eff := NoEffect;
            }
          } else {
            eff := Rearm(decryptionErrorStart, None);
            decryptionErrorStart := None;
            timerPending := eff == SchedulePoll(PollIntervalMs);
          }
      }
    }

    /** A re-render of the key screen while the waiter is shown: `onTimeout`
        and `onDone` are new closures, so the polling effect re-runs, clearing
        the armed timer and polling at once. */
    method OnParentRender() returns (eff: Effect)
      modifies this`timerPending
      ensures old(cancelled) ==> eff == NoEffect && timerPending == old(timerPending)
      ensures !old(cancelled) ==> eff == PollAgain && !timerPending
    {
      if cancelled {
        eff := NoEffect;
      } else {
        eff := PollAgain;
        timerPending := false;
      }
    }

    /** The effect's cleanup when the waiter is left: later answers are
        ignored and the armed timer is cleared. */
    method Cleanup()
      modifies this`cancelled, this`timerPending
      ensures cancelled && !timerPending
    {
      cancelled := true;
      timerPending := false;
    }
  }

  // ---------------------------------------------------------------------------
  // Properties of the waiter

  /** The recorded start is the arrival time of a decryption error that began
      an unbroken run of decryption errors reaching the end of `hist`. */
  ghost predicate WindowOpenedAt(hist: seq<Tick>, j: int)
  {
    && 0 <= j < |hist|
    && hist[j].now != 0
    && forall m :: j <= m < |hist| ==> IsDecryptionError(hist[m].answer)
  }

  ghost predicate WindowSound(start: Option<int>, hist: seq<Tick>)
  {
    IsRecorded(start) ==> exists j :: WindowOpenedAt(hist, j) && hist[j].now == start.value
  }

  /** A poll that keeps the loop alive keeps the recorded start sound. */
  lemma StepKeepsWindowSound(start: Option<int>, hist: seq<Tick>, t: Tick)
    requires WindowSound(start, hist)
    requires KeepsPolling(WaiterTransition(start, t.answer, t.now).1)
    ensures WindowSound(WaiterTransition(start, t.answer, t.now).0, hist + [t])
  {
    var start' := WaiterTransition(start, t.answer, t.now).0;
    var all := hist + [t];
    if IsRecorded(start') {
      assert IsDecryptionError(t.answer);
      if IsRecorded(start) {
        var j :| WindowOpenedAt(hist, j) && hist[j].now == start.value;
        assert WindowOpenedAt(all, j) && all[j].now == start'.value;
      } else {
        assert WindowOpenedAt(all, |hist|) && all[|hist|].now == start'.value;
      }
    }
  }

  lemma {:induction false} TimeoutAfterPersistentErrorFrom(start: Option<int>, hist: seq<Tick>, ticks: seq<Tick>)
    requires WindowSound(start, hist)
    ensures var es := WaiterRun(start, ticks).1;
            var all := hist + ticks[..|es|];
            es != [] && es[|es| - 1] == CallOnTimeout ==>
              exists j :: WindowOpenedAt(all, j) && all[|all| - 1].now - all[j].now > DecryptionTimeoutMs
    decreases |ticks|
  {
    if ticks != [] {
      var t := ticks[0];
      var (start', e) := WaiterTransition(start, t.answer, t.now);
      if KeepsPolling(e) {
        StepKeepsWindowSound(start, hist, t);
        TimeoutAfterPersistentErrorFrom(start', hist + [t], ticks[1..]);
        var es := WaiterRun(start', ticks[1..]).1;
        assert WaiterRun(start, ticks).1 == [e] + es;
        assert hist + [t] + ticks[1..][..|es|] == hist + ticks[..|es| + 1];
      } else if e == CallOnTimeout {
        var j :| WindowOpenedAt(hist, j) && hist[j].now == start.value;
        var all := hist + ticks[..1];
        assert WindowOpenedAt(all, j);
      }
    }
  }

  /** A window opened inside the first `k + 1` ticks, read back on `ticks`. */
  lemma WindowInPrefix(ticks: seq<Tick>, k: nat, j: int)
    requires k < |ticks|
    requires WindowOpenedAt(ticks[..k + 1], j)
    requires ticks[..k + 1][k].now - ticks[..k + 1][j].now > DecryptionTimeoutMs
    ensures 0 <= j <= k && ticks[j].now != 0
    ensures forall m :: j <= m <= k ==> IsDecryptionError(ticks[m].answer)
    ensures ticks[k].now - ticks[j].now > DecryptionTimeoutMs
  {
    var all := ticks[..k + 1];
    forall m | j <= m <= k
      ensures IsDecryptionError(ticks[m].answer)
    {
      assert ticks[m] == all[m];
    }
  }

  /** A fresh waiter times out only at a decryption error arriving more than
      180000 ms after an earlier decryption error, with nothing but decryption
      errors in between. */
  lemma TimeoutNeedsPersistentDecryptionError(ticks: seq<Tick>)
    ensures var es := WaiterRun(None, ticks).1;
            var k := |es| - 1;
            es != [] && es[k] == CallOnTimeout ==>
              exists j :: 0 <= j < k && ticks[j].now != 0
                          && (forall m :: j <= m <= k ==> IsDecryptionError(ticks[m].answer))
                          && ticks[k].now - ticks[j].now > DecryptionTimeoutMs
  {
    TimeoutAfterPersistentErrorFrom(None, [], ticks);
    var es := WaiterRun(None, ticks).1;
    if es != [] && es[|es| - 1] == CallOnTimeout {
      var k := |es| - 1;
      assert [] + ticks[..|es|] == ticks[..k + 1];
      var j :| WindowOpenedAt(ticks[..k + 1], j) && ticks[..k + 1][k].now - ticks[..k + 1][j].now > DecryptionTimeoutMs;
      WindowInPrefix(ticks, k, j);
      assert j != k;
    }
  }

  /** Once a start is recorded, decryption errors without a break end in a
      timeout no later than the first one arriving more than 180000 ms after
      the start. */
  lemma {:induction false} PersistentErrorTimesOut(start: Option<int>, ticks: seq<Tick>, k: nat)
    requires IsRecorded(start)
    requires k < |ticks|
    requires forall m :: 0 <= m <= k ==> IsDecryptionError(ticks[m].answer)
    requires ticks[k].now - start.value > DecryptionTimeoutMs
    ensures var r := WaiterRun(start, ticks);
            0 < |r.1| <= k + 1 && r.1[|r.1| - 1] == CallOnTimeout && r.0 == start
    decreases k
  {
    var (start', e) := WaiterTransition(start, ticks[0].answer, ticks[0].now);
    if e != CallOnTimeout {
      assert e == SchedulePoll(PollIntervalMs) && start' == start;
      PersistentErrorTimesOut(start, ticks[1..], k - 1);
    }
  }

  /** A fresh waiter facing nothing but decryption errors, the first at a
      non-zero time `ticks[0].now`, times out no later than the first error
      arriving more than 180000 ms after that one. */
  lemma FreshPersistentErrorTimesOut(ticks: seq<Tick>, k: nat)
    requires k < |ticks|
    requires ticks[0].now != 0
    requires forall m :: 0 <= m <= k ==> IsDecryptionError(ticks[m].answer)
    requires ticks[k].now - ticks[0].now > DecryptionTimeoutMs
    ensures var r := WaiterRun(None, ticks);
            0 < |r.1| <= k + 1 && r.1[|r.1| - 1] == CallOnTimeout && r.0 == Some(ticks[0].now)
  {
    var t0 := ticks[0].now;
    assert WaiterTransition(None, ticks[0].answer, t0) == (Some(t0), PollAgain);
    assert k != 0;
    var rest := ticks[1..];
    assert forall m :: 0 <= m <= k - 1 ==> rest[m] == ticks[m + 1];
    PersistentErrorTimesOut(Some(t0), rest, k - 1);
    assert WaiterRun(None, ticks) == (WaiterRun(Some(t0), rest).0, [PollAgain] + WaiterRun(Some(t0), rest).1);
  }

  /** Any answer other than an error or `Done` forgets the recorded start, so a
      later decryption error starts a new window at its own arrival time. */
  lemma OtherStatusRestartsWindow(start: Option<int>, q: QueryResult, now: int, t: Tick)
    requires q.Resolved? && q.snapshot.status != Done && q.snapshot.status != ErrorMessages
    requires IsDecryptionError(t.answer)
    ensures var r := WaiterTransition(start, q, now);
            KeepsPolling(r.1) && r.0 == None &&
            WaiterTransition(r.0, t.answer, t.now) == (Some(t.now), Rearm(None, Some(t.now)))
  {
  }

  /** Two decryption errors 181000 ms apart time out; an answer of another
      status in between forgets the first, so the same arrival times do not. */
  lemma DecryptionWindowScenario(other: SessionStatus)
    requires other != Done && other != ErrorMessages
    ensures var de := Resolved(Snapshot(ErrorMessages, Some("DecryptionError")));
            WaiterRun(None, [Tick(de, 1000), Tick(de, 182000)]) == (Some(1000), [PollAgain, CallOnTimeout])
    ensures var de := Resolved(Snapshot(ErrorMessages, Some("DecryptionError")));
            WaiterRun(None, [Tick(de, 1000), Tick(Resolved(Snapshot(other, None)), 100000), Tick(de, 150000), Tick(de, 182000)]).1
                 == [PollAgain, PollAgain, PollAgain, SchedulePoll(PollIntervalMs)]
  {
    var de := Resolved(Snapshot(ErrorMessages, Some("DecryptionError")));
    var mid := Resolved(Snapshot(other, None));
    var a := [Tick(de, 1000), Tick(de, 182000)];
    assert a[1..] == [Tick(de, 182000)];
    assert WaiterRun(Some(1000), a[1..]) == (Some(1000), [CallOnTimeout]);
    assert WaiterTransition(None, de, 1000) == (Some(1000), PollAgain);
    assert WaiterRun(None, a) == (Some(1000), [PollAgain] + [CallOnTimeout]);
    assert [PollAgain] + [CallOnTimeout] == [PollAgain, CallOnTimeout];
    var b := [Tick(de, 1000), Tick(mid, 100000), Tick(de, 150000), Tick(de, 182000)];
    assert b[1..][1..][1..] == [Tick(de, 182000)];
    assert WaiterRun(Some(150000), b[1..][1..][1..]).1 == [SchedulePoll(PollIntervalMs)];
    assert WaiterRun(None, b[1..][1..]).1 == [PollAgain, SchedulePoll(PollIntervalMs)];
    assert WaiterRun(Some(1000), b[1..]).1 == [PollAgain, PollAgain, SchedulePoll(PollIntervalMs)];
    assert WaiterRun(None, b).1 == [PollAgain] + [PollAgain, PollAgain, SchedulePoll(PollIntervalMs)];
    assert WaiterRun(None, b).1 == [PollAgain, PollAgain, PollAgain, SchedulePoll(PollIntervalMs)];
  }
}
