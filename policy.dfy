/** The rules both generator scripts share in shape and differ in detail:
    how many orders a weekday gets, and when an order counts as completed. */
module Policy {
  import opened Wrappers
  import opened Calendar

  /** A closed range [lo, hi] of daily order counts. */
  datatype Band = Band(lo: int, hi: int)

  predicate InBand(b: Band, n: int)
  {
    b.lo <= n <= b.hi
  }

  /** The volume policy of simple_shop_data_generator.py: Sunday, Saturday, any other day. */
  function ShopBand(d: Weekday): (b: Band)
    ensures 10 <= b.lo <= b.hi <= 40
    ensures InBand(b, 10) <==> d == Sunday
  {
    if d == Sunday then Band(10, 20)
    else if d == Saturday then Band(15, 30)
    else Band(15, 40)
  }

  /** The volume policy of notes_and_changes/more_complicated_orders_approach.py: Sunday or any other day. */
  function NotesBand(d: Weekday): (b: Band)
    ensures 10 <= b.lo <= b.hi <= 40
    ensures InBand(b, 10) <==> d == Sunday
  {
    if d == Sunday then Band(10, 20) else Band(15, 40)
  }

  /** The two policies agree on every weekday except Saturday. */
  lemma BandsDifferOnlyOnSaturday(d: Weekday)
    ensures ShopBand(d) != NotesBand(d) <==> d == Saturday
  {
  }

  /** Every count the shop policy allows, the notes policy allows too. */
  lemma ShopBandWithinNotesBand(d: Weekday, n: int)
    ensures InBand(ShopBand(d), n) ==> InBand(NotesBand(d), n)
  {
  }

  /** The counts on which the policies disagree: a Saturday with 31 to 40 orders. */
  lemma BandDisagreement(d: Weekday, n: int)
    ensures InBand(NotesBand(d), n) && !InBand(ShopBand(d), n) <==> d == Saturday && 31 <= n <= 40
  {
  }

  /** Completion delays are drawn in whole minutes from this range. */
  const MinDelayMinutes: int := 1
  const MaxDelayMinutes: int := 10

  /** When a cart or order was completed: never (None) when the incomplete
      branch is taken, else `minutes` whole minutes after `created`. The
      delay is only drawn on the completed branch. */
  function CompletionTime(created: int, incomplete: bool, minutes: int): (r: Option<int>)
    requires !incomplete ==> MinDelayMinutes <= minutes <= MaxDelayMinutes
    ensures r.None? <==> incomplete
    ensures r.Some? ==> created + MinDelayMinutes * SecondsPerMinute <= r.value <= created + MaxDelayMinutes * SecondsPerMinute
    ensures r.Some? ==> (r.value - created) % SecondsPerMinute == 0
  {
    if incomplete then None else Some(created + minutes * SecondsPerMinute)
  }

  /** The whole minutes between creation and completion. */
  function DelayMinutes(created: int, completed: int): int
  {
    (completed - created) / SecondsPerMinute
  }

  /** The delay drawn can be read back from the two timestamps. */
  lemma DelayRecovered(created: int, minutes: int)
    requires MinDelayMinutes <= minutes <= MaxDelayMinutes
    ensures CompletionTime(created, false, minutes).Some?
    ensures DelayMinutes(created, CompletionTime(created, false, minutes).value) == minutes
  {
    var completed := CompletionTime(created, false, minutes).value;
    assert completed - created == minutes * SecondsPerMinute;
  }

  /** The fraction below which an order is left incomplete. */
  const IncompleteThreshold: real := 0.01

  /** simple_shop_data_generator.py completes an order when its uniform draw
      is above the threshold, so it leaves it incomplete otherwise. */
  predicate ShopIncomplete(u: real): (b: bool)
    ensures b <==> u <= IncompleteThreshold
  {
    !(u > IncompleteThreshold)
  }

  /** notes_and_changes/more_complicated_orders_approach.py leaves an order
      incomplete when its draw is below the threshold. */
  predicate NotesIncomplete(u: real): (b: bool)
    ensures b ==> u <= IncompleteThreshold
    ensures u == IncompleteThreshold ==> !b
  {
    u < IncompleteThreshold
  }

  /** The two comparisons decide differently for exactly one draw: the threshold itself. */
  lemma IncompleteRulesDifferOnlyAtThreshold(u: real)
    ensures ShopIncomplete(u) != NotesIncomplete(u) <==> u == IncompleteThreshold
  {
  }
}
