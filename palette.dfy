/** The hex colours the dashboard components use. */
module Palette {

  const Blue: string := "#1f78b4"
  const Yellow: string := "#ffffbf"
  const Red: string := "#d7191c"
  const Green: string := "#2ca02c"
  const Orange: string := "#ff7f0e"
  /** The colour the mood panel starts from before its branch chain runs. */
  const Grey: string := "#666"

  /** One of the three colours of the temperature and pulse scales. */
  predicate OnScale(c: string)
  {
    c == Blue || c == Yellow || c == Red
  }

  /** The place of a scale colour from cold (0) to hot (2). */
  function Warmth(c: string): (w: nat)
    requires OnScale(c)
    ensures w <= 2
  {
    if c == Blue then 0 else if c == Yellow then 1 else 2
  }
}
