/** The three-colour scale and the alert icons the budget pages render, as values. */
module Indicators {
  /** Green, yellow/amber or red, whatever class or hex string a page renders it with. */
  datatype Tone = Green | Yellow | Red

  /** The warning triangle, the warning circle, or no icon. */
  datatype AlertIcon = Triangle | Circle | NoIcon
}
