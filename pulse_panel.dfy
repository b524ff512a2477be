/** frontend/src/components/Pulse.tsx: the colour and description of a pulse reading. */
module PulsePanel {
  import opened Palette

  const Low: string := "Low activity - resting state"
  const Moderate: string := "Moderate activity"
  const High: string := "High activity - vibrant"

  /** `getColor`: blue below 20, yellow below 50, red from 50 up. */
  function GetColor(p: real): (c: string)
    ensures OnScale(c)
    ensures c == Blue <==> p < 20.0
    ensures c == Yellow <==> 20.0 <= p < 50.0
    ensures c == Red <==> p >= 50.0
  {
    if p < 20.0 then Blue
    else if p < 50.0 then Yellow
    else Red
  }

  /** The description chosen by the ternary under the value: exactly one of three. */
  function Description(pulse: real): (d: string)
    ensures d == Low || d == Moderate || d == High
  {
    if pulse < 20.0 then Low else if pulse < 50.0 then Moderate else High
  }

  /** A higher pulse never gives a colder colour. */
  lemma GetColorMonotone(p1: real, p2: real)
    requires p1 <= p2
    ensures Warmth(GetColor(p1)) <= Warmth(GetColor(p2))
  {
  }

  /** The description follows the colour band, at the 20 and 50 boundaries too. */
  lemma DescriptionMatchesColor(pulse: real)
    ensures GetColor(pulse) == Blue <==> Description(pulse) == Low
    ensures GetColor(pulse) == Yellow <==> Description(pulse) == Moderate
    ensures GetColor(pulse) == Red <==> Description(pulse) == High
  {
  }

  /** The three descriptions are distinct, so exactly one is shown. */
  lemma DescriptionsDistinct()
    ensures Low != Moderate && Moderate != High && Low != High
  {
  }
}
