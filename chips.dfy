/** The colour and variant tokens a status chip is drawn with. */
module Chips {

  datatype Color = Default | Primary | Secondary | Success | Warning | Error

  datatype Variant = Filled | Outlined
}
