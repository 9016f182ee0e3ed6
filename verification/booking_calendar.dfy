/** The booking calendar: which bookings fall on a calendar day, the status
    filter of the invoice list, the status badge colours, and the list shown
    for the selected day. Dates are whole day numbers, so "the same day" is
    equality of day numbers. */
module BookingCalendar {
  import opened Lists

  /** A calendar day, counted from an arbitrary origin. */
  type Day = int

  datatype Booking = Booking(
    id: string,
    guestName: string,
    property: string,
    checkIn: Day,
    checkOut: Day,
    status: string,
    amount: int,
    invoiceId: string)

  /** The test inside `getBookingsForDate`: the day is the check-in day, the
      check-out day, or lies between them. */
  predicate FallsOn(b: Booking, date: Day)
  {
    b.checkIn == date || b.checkOut == date || (b.checkIn <= date && b.checkOut >= date)
  }

  /** The filter callback of `getBookingsForDate` for one day. */
  function FallsOnTest(date: Day): Booking -> bool
  {
    b => FallsOn(b, date)
  }

  /** `getBookingsForDate`: the bookings that fall on the given day, in the
      order of the booking list. */
  function BookingsForDate(bookings: seq<Booking>, date: Day): (r: seq<Booking>)
    ensures forall b :: b in r <==> b in bookings && FallsOn(b, date)
    ensures IsSubsequence(r, bookings)
    ensures forall b :: multiset(r)[b] == if FallsOn(b, date) then multiset(bookings)[b] else 0
  {
    FilterIsSubsequence(bookings, FallsOnTest(date));
    FilterMultiset(bookings, FallsOnTest(date));
    Filter(bookings, FallsOnTest(date))
  }

  /** For a booking whose check-out is not before its check-in, the two
      same-day tests add nothing: it falls exactly on the days from check-in
      through check-out. A booking stored the wrong way round shows on its
      two boundary days only. */
  lemma FallsOnIff(b: Booking, date: Day)
    ensures b.checkIn <= b.checkOut ==> (FallsOn(b, date) <==> b.checkIn <= date <= b.checkOut)
    ensures b.checkIn > b.checkOut ==> (FallsOn(b, date) <==> date == b.checkIn || date == b.checkOut)
  {
  }

  /** A listed booking is returned for every day of its stay, check-in and
      check-out days included. */
  lemma {:induction false} StayDaysListed(bookings: seq<Booking>, i: nat, date: Day)
    requires i < |bookings|
    requires bookings[i].checkIn <= date <= bookings[i].checkOut
    ensures bookings[i] in BookingsForDate(bookings, date)
  {
    assert bookings[i] in bookings;
  }

  /** A calendar day shows the marker dot when it has at least one booking. */
  function HasMarker(bookings: seq<Booking>, date: Day): (r: bool)
    ensures r <==> exists b :: b in bookings && FallsOn(b, date)
  {
    FilterNoneIff(bookings, FallsOnTest(date));
    |BookingsForDate(bookings, date)| > 0
  }

  /** The filter callback of `filteredBookings` for one status. */
  function HasStatus(status: string): Booking -> bool
  {
    (b: Booking) => b.status == status
  }

  /** `filteredBookings`: "all" keeps the whole list; any other value keeps
      the bookings with exactly that status, in their original order. */
  function FilteredBookings(bookings: seq<Booking>, filterStatus: string): (r: seq<Booking>)
    ensures filterStatus == "all" ==> r == bookings
    ensures filterStatus != "all" ==>
      && (forall b :: b in r <==> b in bookings && b.status == filterStatus)
      && IsSubsequence(r, bookings)
      && (forall b :: multiset(r)[b] == if b.status == filterStatus then multiset(bookings)[b] else 0)
  {
    if filterStatus == "all" then bookings
    else
      FilterIsSubsequence(bookings, HasStatus(filterStatus));
      FilterMultiset(bookings, HasStatus(filterStatus));
      Filter(bookings, HasStatus(filterStatus))
  }

  /** `selectedDateBookings`: nothing when no day is selected, otherwise the
      bookings of the selected day, in booking order and each as often as it
      is listed. */
  function SelectedDateBookings(bookings: seq<Booking>, selectedDate: Option<Day>): (r: seq<Booking>)
    ensures selectedDate.None? ==> r == []
    ensures selectedDate.Some? ==>
      && (forall b :: b in r <==> b in bookings && FallsOn(b, selectedDate.value))
      && IsSubsequence(r, bookings)
      && (forall b :: multiset(r)[b] == if FallsOn(b, selectedDate.value) then multiset(bookings)[b] else 0)
  {
    match selectedDate
    case None => []
    case Some(d) => BookingsForDate(bookings, d)
  }

  const ConfirmedClass := "bg-green-500/20 text-green-400 border-green-500/30"
  const PendingClass := "bg-yellow-500/20 text-yellow-400 border-yellow-500/30"
  const CheckedInClass := "bg-blue-500/20 text-blue-400 border-blue-500/30"
  const CancelledClass := "bg-red-500/20 text-red-400 border-red-500/30"
  const DefaultClass := "bg-gray-500/20 text-gray-400 border-gray-500/30"

  /** `getStatusColor`: the four booking statuses get four different badge
      styles, and every other string gets the grey default. */
  function StatusColor(status: string): (r: string)
    ensures status == "confirmed" ==> r == ConfirmedClass
    ensures status == "pending" ==> r == PendingClass
    ensures status == "checked-in" ==> r == CheckedInClass
    ensures status == "cancelled" ==> r == CancelledClass
    ensures r == DefaultClass <==> status !in {"confirmed", "pending", "checked-in", "cancelled"}
  {
    match status
    case "confirmed" => ConfirmedClass
    case "pending" => PendingClass
    case "checked-in" => CheckedInClass
    case "cancelled" => CancelledClass
    case _ => DefaultClass
  }

  /** Two strings share a badge style only when both are the same booking
      status or neither is a booking status. */
  lemma StatusColorsDistinct(s: string, t: string)
    requires StatusColor(s) == StatusColor(t)
    ensures s == t || (s !in {"confirmed", "pending", "checked-in", "cancelled"}
                       && t !in {"confirmed", "pending", "checked-in", "cancelled"})
  {
  }

  /** The four mock bookings, with check-in and check-out given relative to today. */
  function MockBookings(today: Day): (r: seq<Booking>)
    ensures |r| == 4
    ensures forall i :: 0 <= i < |r| ==> r[i].checkIn <= r[i].checkOut
  {
    [ Booking("BK001", "Alex Chen", "Neo Tokyo Suites", today, today + 3, "confirmed", 450, "INV-2024-001"),
      Booking("BK002", "Sarah Johnson", "Quantum Luxury Resort", today + 1, today + 5, "pending", 680, "INV-2024-002"),
      Booking("BK003", "Marcus Rodriguez", "Cyber Heights Hotel", today + 2, today + 4, "confirmed", 320, "INV-2024-003"),
      Booking("BK004", "Emma Wilson", "Neo Tokyo Suites", today - 2, today + 1, "checked-in", 520, "INV-2024-004") ]
  }

  /** Any four-element list filtered by one test, worked out element by element. */
  lemma {:induction false} FilterFour(m: seq<Booking>, p: Booking -> bool)
    requires |m| == 4
    ensures Filter(m, p) == Kept(m[0], p) + Kept(m[1], p) + (Kept(m[2], p) + Kept(m[3], p))
  {
    assert m == [m[0], m[1]] + [m[2], m[3]];
    FilterConcat([m[0], m[1]], [m[2], m[3]], p);
    FilterPair(m[0], m[1], p);
    FilterPair(m[2], m[3], p);
  }

  /** Tomorrow, the mock data shows the first, second and fourth booking. */
  lemma {:induction false} MockTomorrow(today: Day)
    ensures BookingsForDate(MockBookings(today), today + 1)
         == [MockBookings(today)[0], MockBookings(today)[1], MockBookings(today)[3]]
  {
    var m := MockBookings(today);
    assert FallsOn(m[0], today + 1) && FallsOn(m[1], today + 1);
    assert !FallsOn(m[2], today + 1) && FallsOn(m[3], today + 1);
    DayOfFour(m, today + 1);
  }

  /** The day lookup on four bookings of which the third is away that day. */
  lemma {:induction false} DayOfFour(m: seq<Booking>, date: Day)
    requires |m| == 4
    requires FallsOn(m[0], date) && FallsOn(m[1], date) && !FallsOn(m[2], date) && FallsOn(m[3], date)
    ensures BookingsForDate(m, date) == [m[0], m[1], m[3]]
  {
    var p := FallsOnTest(date);
    assert Kept(m[0], p) == [m[0]] && Kept(m[1], p) == [m[1]];
    assert Kept(m[2], p) == [] && Kept(m[3], p) == [m[3]];
    FilterFour(m, p);
  }

  /** Filtering the mock data for "confirmed" keeps the first and third booking. */
  lemma {:induction false} MockConfirmed(today: Day)
    ensures FilteredBookings(MockBookings(today), "confirmed") == [MockBookings(today)[0], MockBookings(today)[2]]
  {
    var m := MockBookings(today);
    assert m[0].status == "confirmed" && m[1].status != "confirmed";
    assert m[2].status == "confirmed" && m[3].status != "confirmed";
    ConfirmedOfFour(m);
  }

  /** The "confirmed" filter on four bookings of which the first and third are confirmed. */
  lemma {:induction false} ConfirmedOfFour(m: seq<Booking>)
    requires |m| == 4
    requires m[0].status == "confirmed" && m[1].status != "confirmed"
    requires m[2].status == "confirmed" && m[3].status != "confirmed"
    ensures FilteredBookings(m, "confirmed") == [m[0], m[2]]
  {
    var p := HasStatus("confirmed");
    assert Kept(m[0], p) == [m[0]] && Kept(m[1], p) == [];
    assert Kept(m[2], p) == [m[2]] && Kept(m[3], p) == [];
    FilterFour(m, p);
  }
}
