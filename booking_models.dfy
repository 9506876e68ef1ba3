/**
 * bookings/models.py: the two status enumerations, `Booking.duration_months`,
 * and the `Booking` and `Inquiry` records with their defaults. Records are
 * objects because the views load them and assign their fields in place.
 */
module BookingModels {
  import opened Types
  import opened Text
  import opened Calendar

  // ---------------------------------------------------------------------
  // Status enumerations

  /** `Booking.STATUS_CHOICES`. */
  datatype BookingStatus = Pending | Approved | Rejected | Cancelled | Completed

  const BookingStatuses: seq<BookingStatus> := [Pending, Approved, Rejected, Cancelled, Completed]

  /** The stored value of a booking status. */
  function BookingStatusValue(s: BookingStatus): string
  {
    match s
    case Pending => "pending"
    case Approved => "approved"
    case Rejected => "rejected"
    case Cancelled => "cancelled"
    case Completed => "completed"
  }

  /** The human-readable label of a booking status. */
  function BookingStatusLabel(s: BookingStatus): string
  {
    match s
    case Pending => "Pending"
    case Approved => "Approved"
    case Rejected => "Rejected"
    case Cancelled => "Cancelled"
    case Completed => "Completed"
  }

  /** `Inquiry.STATUS_CHOICES`. */
  datatype InquiryStatus = New | Contacted | Responded | Closed

  const InquiryStatuses: seq<InquiryStatus> := [New, Contacted, Responded, Closed]

  function InquiryStatusValue(s: InquiryStatus): string
  {
    match s
    case New => "new"
    case Contacted => "contacted"
    case Responded => "responded"
    case Closed => "closed"
  }

  /**
   * Each enumeration lists every status once, and distinct statuses are
   * stored as distinct values, so a stored value names exactly one status.
   */
  lemma StatusValuesDistinct(s: BookingStatus, t: BookingStatus, u: InquiryStatus, v: InquiryStatus)
    ensures s in BookingStatuses && |BookingStatuses| == 5
    ensures u in InquiryStatuses && |InquiryStatuses| == 4
    ensures BookingStatusValue(s) == BookingStatusValue(t) ==> s == t
    ensures InquiryStatusValue(u) == InquiryStatusValue(v) ==> u == v
  {
    if BookingStatusValue(s) == BookingStatusValue(t) {
      assert BookingStatusValue(s)[0] == BookingStatusValue(t)[0];
      assert BookingStatusValue(s)[1] == BookingStatusValue(t)[1];
    }
    if InquiryStatusValue(u) == InquiryStatusValue(v) {
      assert InquiryStatusValue(u)[0] == InquiryStatusValue(v)[0];
    }
  }

  /** `str.capitalize()` on ASCII text: upper-case first letter, the rest lower-case. */
  function Capitalize(s: string): (r: string)
    ensures |r| == |s|
    ensures |s| > 0 ==> r[0] == UpperChar(s[0])
    ensures forall i :: 1 <= i < |s| ==> r[i] == LowerChar(s[i])
  {
    seq(|s|, i requires 0 <= i < |s| => if i == 0 then UpperChar(s[0]) else LowerChar(s[i]))
  }

  /** Capitalising a stored status value gives its label. */
  lemma CapitalizedValueIsLabel(s: BookingStatus)
    ensures Capitalize(BookingStatusValue(s)) == BookingStatusLabel(s)
  {
    match s
    case Pending =>
    case Approved =>
    case Rejected =>
    case Cancelled =>
    case Completed =>
  }

  // ---------------------------------------------------------------------
  // duration_months

  /**
   * `Booking.duration_months`: `years * 12 + months` of
   * `relativedelta(check_out, check_in)`; leftover days are dropped.
   */
  function DurationMonths(checkIn: Date, checkOut: Date): (m: int)
    requires Valid(checkIn) && Valid(checkOut)
    ensures m == RelativeMonths(checkOut, checkIn)
  {
    var ym := SplitMonths(RelativeMonths(checkOut, checkIn));
    ym.years * 12 + ym.months
  }

  /**
   * For a forward stay the duration is the number of whole months from
   * check-in that fit before check-out: never negative, and one more month
   * from check-in would pass check-out.
   */
  lemma DurationMonthsForward(checkIn: Date, checkOut: Date)
    requires Valid(checkIn) && Valid(checkOut) && NotAfter(checkIn, checkOut)
    ensures var m := DurationMonths(checkIn, checkOut);
      && m >= 0
      && NotAfter(AddMonths(checkIn, m), checkOut)
      && forall k :: k > m ==> Before(checkOut, AddMonths(checkIn, k))
  {
    RelativeMonthsForward(checkOut, checkIn);
    forall k | k > DurationMonths(checkIn, checkOut)
      ensures Before(checkOut, AddMonths(checkIn, k))
    {
      RelativeMonthsIsLargest(checkOut, checkIn, k);
    }
  }

  /** A check-out before check-in gives a duration of zero or less. */
  lemma DurationMonthsBackward(checkIn: Date, checkOut: Date)
    requires Valid(checkIn) && Valid(checkOut) && Before(checkOut, checkIn)
    ensures DurationMonths(checkIn, checkOut) <= 0
  {
    RelativeMonthsBackward(checkOut, checkIn);
  }

  /** A stay shorter than one calendar month has a duration of zero. */
  lemma ShortStayIsZeroMonths(checkIn: Date, checkOut: Date)
    requires Valid(checkIn) && Valid(checkOut) && NotAfter(checkIn, checkOut)
    requires Before(checkOut, AddMonths(checkIn, 1))
    ensures DurationMonths(checkIn, checkOut) == 0
  {
    DurationMonthsForward(checkIn, checkOut);
    var m := DurationMonths(checkIn, checkOut);
    if m > 1 {
      AddMonthsIncreasing(checkIn, 1, m);
    }
  }

  /**
   * Worked cases: 1 January to 1 April is three months, 1 to 20 January is
   * none, and 31 January to 28 February (a clamped month) is one.
   */
  lemma DurationMonthsExamples()
    ensures DurationMonths(Date(2025, 1, 1), Date(2025, 4, 1)) == 3
    ensures DurationMonths(Date(2025, 1, 1), Date(2025, 1, 20)) == 0
    ensures DurationMonths(Date(2025, 1, 31), Date(2025, 2, 28)) == 1
  {
    assert AddMonths(Date(2025, 1, 1), 3) == Date(2025, 4, 1);
    assert AddMonths(Date(2025, 1, 1), 0) == Date(2025, 1, 1);
    assert AddMonths(Date(2025, 1, 31), 1) == Date(2025, 2, 28);
  }

  // ---------------------------------------------------------------------
  // Records

  /** The status and the four instants of a booking's life. */
  datatype Lifecycle = Lifecycle(
    status: BookingStatus,
    bookedAt: Time,
    approvedAt: Option<Time>,
    cancelledAt: Option<Time>,
    completedAt: Option<Time>)

  class Booking {
    const id: BookingId
    var student: UserId
    var property: PropertyId
    var landlord: UserId
    var checkIn: Date
    var checkOut: Date
    var occupants: int
    var studentMessage: string
    var totalPrice: int          // cents
    var status: BookingStatus
    var bookedAt: Time
    var approvedAt: Option<Time>
    var cancelledAt: Option<Time>
    var completedAt: Option<Time>
    var paymentStatus: string

    function Stamps(): Lifecycle
      reads this
    {
      Lifecycle(status, bookedAt, approvedAt, cancelledAt, completedAt)
    }

    /**
     * A new booking row: status "pending", `booked_at` set to the creation
     * instant, the other three instants empty, payment "pending".
     */
    constructor (id: BookingId, student: UserId, property: PropertyId, landlord: UserId,
                 checkIn: Date, checkOut: Date, occupants: int, studentMessage: string,
                 totalPrice: int, now: Time)
      ensures this.id == id && this.student == student && this.property == property
      ensures this.landlord == landlord && this.checkIn == checkIn && this.checkOut == checkOut
      ensures this.occupants == occupants && this.studentMessage == studentMessage
      ensures this.totalPrice == totalPrice
      ensures Stamps() == Lifecycle(Pending, now, None, None, None)
      ensures paymentStatus == "pending"
    {
      this.id := id;
      this.student := student;
      this.property := property;
      this.landlord := landlord;
      this.checkIn := checkIn;
      this.checkOut := checkOut;
      this.occupants := occupants;
      this.studentMessage := studentMessage;
      this.totalPrice := totalPrice;
      status := Pending;
      bookedAt := now;
      approvedAt := None;
      cancelledAt := None;
      completedAt := None;
      paymentStatus := "pending";
    }
  }

  class Inquiry {
    const id: InquiryId
    var property: PropertyId
    var student: UserId
    var message: string
    var status: InquiryStatus
    var createdAt: Time
    var updatedAt: Time

    /** A new inquiry row: status "new", both instants set to the creation instant. */
    constructor (id: InquiryId, property: PropertyId, student: UserId, message: string, now: Time)
      ensures this.id == id && this.property == property && this.student == student
      ensures this.message == message
      ensures status == New && createdAt == now && updatedAt == now
    {
      this.id := id;
      this.property := property;
      this.student := student;
      this.message := message;
      status := New;
      createdAt := now;
      updatedAt := now;
    }
  }
}
