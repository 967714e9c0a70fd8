/** The slippage control: the impact tier shown next to the value, the sign label of the
    value, and the preset buttons. Slippage is a signed percentage. */
module SlippageInput {
  import opened RealMath

  /** The slider's range. */
  const SliderMin: real := -100.0
  const SliderMax: real := 100.0

  /** The preset buttons, in display order. */
  const PresetValues: seq<real> := [-50.0, -10.0, 0.0, 10.0, 50.0]

  /** Upper bounds, inclusive, of the Low and Medium tiers. */
  const LowLimit: real := 10.0
  const MediumLimit: real := 50.0

  datatype TextColor = Green | Yellow | Red | Plain

  datatype Impact = Low | Medium | High
  {
    function Text(): string {
      match this
      case Low => "Low"
      case Medium => "Medium"
      case High => "High"
    }

    function Color(): TextColor {
      match this
      case Low => Green
      case Medium => Yellow
      case High => Red
    }

    /** The order of the tiers, for comparing them. */
    function Rank(): nat {
      match this
      case Low => 0
      case Medium => 1
      case High => 2
    }
  }

  /** `getSlippageImpact`: the tier of a slippage by its magnitude. */
  function GetSlippageImpact(v: real): (r: Impact)
    ensures r == Low <==> Abs(v) <= LowLimit
    ensures r == Medium <==> LowLimit < Abs(v) <= MediumLimit
    ensures r == High <==> MediumLimit < Abs(v)
    ensures r.Text() == "Low" && r.Color() == Green <==> Abs(v) <= LowLimit
    ensures r.Text() == "Medium" && r.Color() == Yellow <==> LowLimit < Abs(v) <= MediumLimit
    ensures r.Text() == "High" && r.Color() == Red <==> MediumLimit < Abs(v)
  {
    var absValue := Abs(v);
    if absValue <= LowLimit then Low
    else if absValue <= MediumLimit then Medium
    else High
  }

  /** A slippage and its opposite fall in the same tier. */
  lemma ImpactSymmetric(v: real)
    ensures GetSlippageImpact(v) == GetSlippageImpact(-v)
  {
  }

  /** A larger magnitude never falls in a lower tier. */
  lemma ImpactMonotone(a: real, b: real)
    requires Abs(a) <= Abs(b)
    ensures GetSlippageImpact(a).Rank() <= GetSlippageImpact(b).Rank()
  {
  }

  /** The label beside the slider: a "+" sign and green for a non-negative value, no sign and
      red for a negative one. */
  datatype SignLabel = SignLabel(prefix: string, color: TextColor)

  function SliderLabel(v: real): (l: SignLabel)
    ensures l.prefix == "+" <==> v >= 0.0
    ensures l.color == Green <==> v >= 0.0
    ensures l.prefix == "+" || l.prefix == ""
    ensures l.color == Green || l.color == Red
  {
    if v >= 0.0 then SignLabel("+", Green) else SignLabel("", Red)
  }

  /** The colour of a preset button: red below zero, green above, plain at zero. Its label
      carries a "+" exactly when the value is non-negative, as beside the slider. */
  function PresetLabel(v: real): (l: SignLabel)
    ensures l.prefix == SliderLabel(v).prefix
    ensures l.color == Red <==> v < 0.0
    ensures l.color == Green <==> v > 0.0
    ensures l.color == Plain <==> v == 0.0
  {
    SignLabel(if v >= 0.0 then "+" else "", if v < 0.0 then Red else if v > 0.0 then Green else Plain)
  }

  /** A preset button and the slider label agree on the sign prefix everywhere and on the
      colour away from zero; at zero the slider shows green and the button stays plain. */
  lemma PresetAndSliderLabelsAgree(v: real)
    ensures PresetLabel(v).prefix == SliderLabel(v).prefix
    ensures v != 0.0 ==> PresetLabel(v).color == SliderLabel(v).color
    ensures v == 0.0 ==> SliderLabel(v).color == Green && PresetLabel(v).color == Plain
  {
  }

  /** Every preset can be reached with the slider; the ±50 presets are Medium, the others Low,
      so no preset is High. */
  lemma PresetsClassified()
    ensures forall i :: 0 <= i < |PresetValues| ==> SliderMin <= PresetValues[i] <= SliderMax
    ensures forall i :: 0 <= i < |PresetValues| ==>
              GetSlippageImpact(PresetValues[i]) == (if Abs(PresetValues[i]) == MediumLimit then Medium else Low)
    ensures forall i :: 0 <= i < |PresetValues| ==> GetSlippageImpact(PresetValues[i]) != High
  {
  }
}
