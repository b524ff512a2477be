/** frontend/src/components/Mood.tsx: the text and colour of the mood panel. */
module MoodPanel {
  import opened Palette

  const SereneText: string := "Serene - The collective is calm and reflective"
  const BalancedText: string := "Balanced - The collective feels centered and focused"
  const VibrantText: string := "Vibrant - The collective is highly active and energetic"
  const CuriousText: string := "Curious - The collective is exploring and engaged"

  /** What the panel shows. */
  datatype MoodView = MoodView(text: string, color: string)

  /**
   * The if/else chain: serene (t < 30 and p < 20), else balanced (t < 50 and
   * p < 30), else vibrant (t > 70 or p > 50), else curious. The ensures give
   * the region each text covers once the earlier branches have had their turn.
   */
  function MoodOf(temperature: real, pulse: real): (v: MoodView)
    ensures v.text == SereneText <==> temperature < 30.0 && pulse < 20.0
    ensures v.text == BalancedText <==>
      temperature < 50.0 && pulse < 30.0 && (temperature >= 30.0 || pulse >= 20.0)
    ensures v.text == VibrantText <==>
      (temperature > 70.0 || pulse > 50.0) && !(temperature < 50.0 && pulse < 30.0)
    ensures v.text == CuriousText <==>
      temperature <= 70.0 && pulse <= 50.0 && !(temperature < 50.0 && pulse < 30.0)
  {
    if temperature < 30.0 && pulse < 20.0 then MoodView(SereneText, Blue)
    else if temperature < 50.0 && pulse < 30.0 then MoodView(BalancedText, Green)
    else if temperature > 70.0 || pulse > 50.0 then MoodView(VibrantText, Red)
    else MoodView(CuriousText, Orange)
  }

  /** The chain always assigns: the initial empty text and grey colour never reach the screen. */
  lemma MoodAlwaysChosen(temperature: real, pulse: real)
    ensures MoodOf(temperature, pulse).text != ""
    ensures MoodOf(temperature, pulse).color != Grey
  {
  }

  /** Where both the serene and the balanced test hold, serene wins. */
  lemma SereneBeforeBalanced(temperature: real, pulse: real)
    requires temperature < 30.0 && pulse < 20.0
    ensures temperature < 50.0 && pulse < 30.0
    ensures MoodOf(temperature, pulse).text == SereneText
  {
  }

  /** Each text comes with exactly one colour: two readings agree on the text exactly when they agree on the colour. */
  lemma TextDeterminesColor(t1: real, p1: real, t2: real, p2: real)
    ensures MoodOf(t1, p1).text == MoodOf(t2, p2).text <==> MoodOf(t1, p1).color == MoodOf(t2, p2).color
  {
  }
}
