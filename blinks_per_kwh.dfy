/** The blinks-per-kWh screen, for meters read through their LED: a number
    field, shown empty for 0, and a Continue button that refuses a value that is
    not a number above 0 and otherwise sends it to the device. */
module BlinksPerKwh {
  import opened Flow

  /** A JavaScript number as far as this screen cares: `NaN` or a value. */
  datatype JsNumber = NaN | Num(value: real)

  const DefaultBlinksPerKwh: JsNumber := Num(1000.0)
  const RejectMessage := "Blinks per kWh must be a higher number than 0."

  /** `onChangeText`: the value stored for the typed `text`, where `converted`
      is what `Number(text)` gives. */
  function ParseText(text: string, converted: JsNumber): (v: JsNumber)
    ensures text == "" ==> v == Num(0.0)
    ensures text != "" ==> v == converted
  {
    if text == "" then Num(0.0) else converted
  }

  /** The field's text: empty for 0, otherwise the value's own string (`None`
      stands for the empty text, `Some(v)` for `v.toString()`). */
  function DisplayText(v: JsNumber): (shown: Option<JsNumber>)
    ensures shown.None? <==> v == Num(0.0)
    ensures shown.Some? ==> shown.value == v
  {
    if v == Num(0.0) then None else Some(v)
  }

  /** Continue's check, `!(isNaN(v) || v <= 0)`. */
  function Acceptable(v: JsNumber): (ok: bool)
    ensures ok <==> v.Num? && v.value > 0.0
  {
    !(v.NaN? || v.value <= 0.0)
  }

  /** A cleared field, or one whose text converts to 0, shows as empty and
      cannot be submitted. */
  lemma EmptyFieldIsRejected(text: string, converted: JsNumber)
    requires text == "" || converted == Num(0.0)
    ensures DisplayText(ParseText(text, converted)).None?
    ensures !Acceptable(ParseText(text, converted))
  {
  }

  class BlinksPerKwhScreen {
    const deviceId: string
    var blinksPerKwh: JsNumber
    var loading: bool

    constructor (deviceId: string)
      ensures this.deviceId == deviceId && blinksPerKwh == Num(1000.0) && !loading
    {
      this.deviceId := deviceId;
      blinksPerKwh := DefaultBlinksPerKwh;
      loading := false;
    }

    method ChangeText(text: string, converted: JsNumber)
      modifies this`blinksPerKwh
      ensures blinksPerKwh == ParseText(text, converted)
    {
      if text == "" {
        blinksPerKwh := Num(0.0);
      } else {
        blinksPerKwh := converted;
      }
    }

    /** `handleContinue`: nothing while a submission is in flight; an alert and
        nothing else for an unacceptable value; otherwise the value, unchanged,
        is sent and the screen is loading. */
    method Continue() returns (eff: Effect)
      modifies this`loading
      ensures old(loading) ==> eff == NoEffect && loading
      ensures !old(loading) && !Acceptable(blinksPerKwh) ==>
                eff == ShowAlert("Error", "Blinks per kWh must be a higher number than 0.") && !loading
      ensures !old(loading) && Acceptable(blinksPerKwh) ==>
                eff == RequestSetBlinksPerKwh(deviceId, blinksPerKwh.value) && loading
    {
      if loading {
        eff := NoEffect;
        return;
      }
      if blinksPerKwh.NaN? || blinksPerKwh.value <= 0.0 {
        eff := ShowAlert("Error", RejectMessage);
        return;
      }
      loading := true;
      eff := RequestSetBlinksPerKwh(deviceId, blinksPerKwh.value);
    }

    /** The submission has settled: on success the wait screen opens for the
        same device; either way loading ends. */
    method OnSubmitSettled(ok: bool) returns (eff: Effect)
      modifies this`loading
      ensures !loading
      ensures ok ==> eff == Navigate(ONBOARDING_WAIT, Some(deviceId))
      ensures !ok ==> eff == ShowAlert("Error", "An error occurred. Please try again.")
    {
      if ok {
        eff := Navigate(ONBOARDING_WAIT, Some(deviceId));
      } else {
        eff := ShowAlert("Error", "An error occurred. Please try again.");
      }
      loading := false;
    }
  }
}
