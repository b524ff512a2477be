/** frontend/src/components/Temperature.tsx: the colour, description and displayed value of a temperature. */
module TemperaturePanel {
  import opened JsMath
  import opened Palette

  const Cool: string := "Calm and reflective"
  const Mild: string := "Balanced energy"
  const Hot: string := "Highly active"

  /** `getColor`: blue below 30, yellow below 70, red from 70 up. */
  function GetColor(temp: real): (c: string)
    ensures OnScale(c)
    ensures c == Blue <==> temp < 30.0
    ensures c == Yellow <==> 30.0 <= temp < 70.0
    ensures c == Red <==> temp >= 70.0
  {
    if temp < 30.0 then Blue
    else if temp < 70.0 then Yellow
    else Red
  }

  /** The description chosen by the ternary under the value. */
  function Description(temperature: real): (d: string)
    ensures d == Cool || d == Mild || d == Hot
  {
    if temperature < 30.0 then Cool else if temperature < 70.0 then Mild else Hot
  }

  /** A higher temperature never gives a colder colour. */
  lemma GetColorMonotone(t1: real, t2: real)
    requires t1 <= t2
    ensures Warmth(GetColor(t1)) <= Warmth(GetColor(t2))
  {
  }

  /** The description follows the colour band: blue is calm, yellow balanced, red highly active. */
  lemma DescriptionMatchesColor(temperature: real)
    ensures GetColor(temperature) == Blue <==> Description(temperature) == Cool
    ensures GetColor(temperature) == Yellow <==> Description(temperature) == Mild
    ensures GetColor(temperature) == Red <==> Description(temperature) == Hot
  {
  }

  /** The value shown: `Math.round(temperature)`, within half a degree of it. */
  function Displayed(temperature: real): (shown: int)
    ensures shown as real - 0.5 <= temperature < shown as real + 0.5
  {
    Round(temperature)
  }

  /** Rounding never moves a value across the scale's integral thresholds the wrong way: a shown value below 30 means a blue colour. */
  lemma DisplayedBelowThresholdIsBlue(temperature: real)
    requires Displayed(temperature) < 30
    ensures GetColor(temperature) == Blue
  {
  }
}
