/**
 * `getRowColor`: the background colour of a bill row, from how many days are
 * left until the due date (rounded up). The due instant and "now" are
 * millisecond timestamps; "now" is a parameter instead of the wall clock.
 */
module BillItem {

  const MillisPerDay: int := 1000 * 3600 * 24

  const Red: string := "#d82222ff"
  const Yellow: string := "#f6cd2aff"
  const Green: string := "#28de5eff"
  const Grey: string := "#e0e0e0"

  /** `Math.ceil((due - today) / MillisPerDay)`: the least whole number of days not short of the gap. */
  function DaysLeft(due: int, today: int): (d: int)
    ensures (d - 1) * MillisPerDay < due - today <= d * MillisPerDay
  {
    -((today - due) / MillisPerDay)
  }

  /** `getRowColor(dueDate)` with the current instant `today`. */
  function GetRowColor(due: int, today: int): (color: string)
    ensures color == Red <==> DaysLeft(due, today) <= 10
    ensures color == Yellow <==> 10 < DaysLeft(due, today) <= 20
    ensures color == Green <==> 20 < DaysLeft(due, today) <= 30
    ensures color == Grey <==> DaysLeft(due, today) > 30
  {
    var diff := DaysLeft(due, today);
    if diff <= 10 then Red
    else if diff <= 20 then Yellow
    else if diff <= 30 then Green
    else Grey
  }

  /** How pressing a colour is: red 3, yellow 2, green 1, grey 0. */
  function Urgency(color: string): nat {
    if color == Red then 3 else if color == Yellow then 2 else if color == Green then 1 else 0
  }

  /** Overdue bills (due already passed) are red. */
  lemma OverdueIsRed(due: int, today: int)
    requires due <= today
    ensures GetRowColor(due, today) == Red
  {
  }

  /** Rounding the gap up to days is monotone. */
  lemma DaysLeftMonotone(due1: int, due2: int, today: int)
    requires due1 <= due2
    ensures DaysLeft(due1, today) <= DaysLeft(due2, today)
  {
  }

  /** Moving a due date later never makes its row more urgent. */
  lemma LaterDueNeverMoreUrgent(due1: int, due2: int, today: int)
    requires due1 <= due2
    ensures Urgency(GetRowColor(due2, today)) <= Urgency(GetRowColor(due1, today))
  {
    DaysLeftMonotone(due1, due2, today);
  }
}
