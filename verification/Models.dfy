/** Values shared by the velocity stores and the rules. */
module Models {
  import opened Money

  /** The nine counters of a velocity snapshot. */
  datatype Velocity = Velocity(
    tx1: int, tx5: int, tx60: int,
    spend5: Money, spend60: Money, spend24: Money,
    merchants10: int, countries30: int, failed15: int)
}
