/** Calendar dates, as the number of the day. */
module Calendar {

  /** A date, counted in whole days; consecutive dates differ by 1. */
  type Day = int
}
