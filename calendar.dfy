/** Month names in English, as `calendar.month_name[1:]` gives them and as the tracker lists them. */
module Calendar {
  import opened Text


  const Months: seq<string> := ["January", "February", "March", "April", "May", "June", "July",
                                "August", "September", "October", "November", "December"]

  lemma MonthsAreDistinct()
    ensures Distinct(Months)
  {
  }

  lemma MonthsHaveNoSeparators()
    ensures forall m :: m in Months ==> '_' !in m && ' ' !in m
  {
  }
}
