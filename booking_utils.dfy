/** The booking type as shown in the interface and as stored in the database. */
module BookingUtils {
  const UI_OPTION := "En option"
  const UI_CONFIRMED := "Confirmée"
  const DB_OPTION := "En_option"
  const DB_CONFIRMED := "Confirmee"

  /** `mapBookingTypeToDb`: anything unrecognised is stored as an option. */
  function ToDb(t: string): (d: string)
    ensures d == DB_OPTION || d == DB_CONFIRMED
    ensures d == DB_CONFIRMED <==> t == UI_CONFIRMED || t == DB_CONFIRMED
  {
    if t == UI_OPTION then DB_OPTION
    else if t == UI_CONFIRMED || t == DB_CONFIRMED then DB_CONFIRMED
    else DB_OPTION
  }

  /** `mapBookingTypeToUi`: unknown values pass through unchanged. */
  function ToUi(d: string): (t: string)
    ensures d == DB_CONFIRMED ==> t == UI_CONFIRMED
    ensures d == DB_OPTION ==> t == UI_OPTION
    ensures d != DB_CONFIRMED && d != DB_OPTION ==> t == d
  {
    if d == DB_CONFIRMED then UI_CONFIRMED
    else if d == DB_OPTION then UI_OPTION
    else d
  }

  lemma UiRoundTrip(t: string)
    requires t == UI_OPTION || t == UI_CONFIRMED
    ensures ToUi(ToDb(t)) == t
  {
  }

  lemma DbRoundTrip(d: string)
    requires d == DB_OPTION || d == DB_CONFIRMED
    ensures ToDb(ToUi(d)) == d
  {
  }

  /** Storing is idempotent: a stored value maps to itself. */
  lemma ToDbIdempotent(t: string)
    ensures ToDb(ToDb(t)) == ToDb(t)
  {
  }
}
