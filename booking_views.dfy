/**
 * bookings/views.py: creating bookings and inquiries, the booking detail
 * page's permission check and action flags, and the two status updates.
 * Each view's decision (which response it gives) is a function; the views
 * that change rows are methods that carry the decision out on the loaded
 * record and on the notification log. A lookup that found no row is `null`
 * (or `None` for a property row); the clock is the parameter `now`, and a
 * new row's identifier is the parameter `newId`.
 */
module BookingViews {
  import opened Types
  import opened Text
  import opened Accounts
  import opened Calendar
  import opened Decorators
  import opened Listings
  import opened BookingModels

  // ---------------------------------------------------------------------
  // Notifications

  /** A notification row: recipient, type, title and the ids in its data. */
  datatype Notification = Notification(
    recipient: UserId,
    kind: string,
    title: string,
    bookingId: Option<BookingId>,
    inquiryId: Option<InquiryId>,
    propertyId: Option<PropertyId>)

  /** The notification table, in creation order. */
  class NotificationLog {
    var sent: seq<Notification>

    constructor ()
      ensures sent == []
    {
      sent := [];
    }

    method Send(n: Notification)
      modifies this
      ensures sent == old(sent) + [n]
    {
      sent := sent + [n];
    }
  }

  // ---------------------------------------------------------------------
  // Price of a new booking

  /** The months billed: the duration, raised to one when it is below one. */
  function BillableMonths(checkIn: Date, checkOut: Date): (m: int)
    requires Valid(checkIn) && Valid(checkOut)
    ensures m >= 1
    ensures m == DurationMonths(checkIn, checkOut) || (DurationMonths(checkIn, checkOut) < 1 && m == 1)
  {
    var months := DurationMonths(checkIn, checkOut);
    if months < 1 then 1 else months
  }

  /** `total_price`: the monthly price times the billed months. */
  function BookingPrice(pricePerMonth: int, checkIn: Date, checkOut: Date): (price: int)
    requires Valid(checkIn) && Valid(checkOut)
    ensures pricePerMonth >= 0 ==> price >= pricePerMonth
  {
    var months := BillableMonths(checkIn, checkOut);
    if pricePerMonth >= 0 then
      NoLessThanOneMonth(pricePerMonth, months);
      pricePerMonth * months
    else
      pricePerMonth * months
  }

  lemma NoLessThanOneMonth(price: int, months: int)
    requires price >= 0 && months >= 1
    ensures price * months >= price
  {
    assert price * months == price + price * (months - 1);
  }

  /**
   * A stay shorter than one calendar month, or a check-out before
   * check-in, is billed as one month.
   */
  lemma ShortStayBilledAsOneMonth(pricePerMonth: int, checkIn: Date, checkOut: Date)
    requires Valid(checkIn) && Valid(checkOut)
    requires Before(checkOut, AddMonths(checkIn, 1))
    ensures BookingPrice(pricePerMonth, checkIn, checkOut) == pricePerMonth
  {
    if NotAfter(checkIn, checkOut) {
      ShortStayIsZeroMonths(checkIn, checkOut);
    } else {
      DurationMonthsBackward(checkIn, checkOut);
    }
  }

  /**
   * A stay of at least one month is billed for exactly the whole months
   * that fit into it: k months from check-in is not after check-out, and
   * k + 1 months would be.
   */
  lemma LongStayBilledByWholeMonths(pricePerMonth: int, checkIn: Date, checkOut: Date)
    requires Valid(checkIn) && Valid(checkOut)
    requires NotAfter(AddMonths(checkIn, 1), checkOut)
    ensures var k := BillableMonths(checkIn, checkOut);
      && BookingPrice(pricePerMonth, checkIn, checkOut) == pricePerMonth * k
      && NotAfter(AddMonths(checkIn, k), checkOut)
      && Before(checkOut, AddMonths(checkIn, k + 1))
  {
    AddNoMonths(checkIn);
    AddMonthsIncreasing(checkIn, 0, 1);
    DurationMonthsForward(checkIn, checkOut);
    assert !Before(checkOut, AddMonths(checkIn, 1));
  }

  /** 1 January to 1 April at 500.00 a month costs 1500.00. */
  lemma BookingPriceExample()
    ensures BookingPrice(50000, Date(2025, 1, 1), Date(2025, 4, 1)) == 150000
  {
    DurationMonthsExamples();
  }

  // ---------------------------------------------------------------------
  // Booking status transitions

  /** The status whitelist of `update_booking_status`. */
  function ParseBookingTarget(s: string): (t: Option<BookingStatus>)
    ensures t.Some? <==> s == "approved" || s == "rejected" || s == "cancelled" || s == "completed"
    ensures t.Some? ==> BookingStatusValue(t.value) == s && t.value != Pending
  {
    if s == "approved" then Some(Approved)
    else if s == "rejected" then Some(Rejected)
    else if s == "cancelled" then Some(Cancelled)
    else if s == "completed" then Some(Completed)
    else None
  }

  /** Every status but "pending" is a target, named by its stored value. */
  lemma ParseBookingTargetRoundTrip(t: BookingStatus)
    ensures ParseBookingTarget(BookingStatusValue(t)) == if t == Pending then None else Some(t)
  {
    var r := ParseBookingTarget(BookingStatusValue(t));
    if r.Some? {
      StatusValuesDistinct(r.value, t, New, New);
    }
  }

  /** The instant recorded for reaching `s`: `booked_at` for pending, none for rejected. */
  function StampOf(l: Lifecycle, s: BookingStatus): Option<Time>
  {
    match s
    case Pending => Some(l.bookedAt)
    case Approved => l.approvedAt
    case Rejected => None
    case Cancelled => l.cancelledAt
    case Completed => l.completedAt
  }

  /** The POST branch: set the status, and stamp the matching instant, if any. */
  function Transition(l: Lifecycle, target: BookingStatus, now: Time): (r: Lifecycle)
    ensures r.status == target && r.bookedAt == l.bookedAt
    ensures target != Rejected && target != Pending ==> StampOf(r, target) == Some(now)
  {
    l.(status := target,
       approvedAt := if target == Approved then Some(now) else l.approvedAt,
       cancelledAt := if target == Cancelled then Some(now) else l.cancelledAt,
       completedAt := if target == Completed then Some(now) else l.completedAt)
  }

  /**
   * A transition reaches its target from any status (there is no
   * transition graph), keeps `booked_at`, records `now` as the instant of
   * the target when it has one, and leaves every other instant alone.
   */
  lemma TransitionStampsOnlyTarget(l: Lifecycle, target: BookingStatus, now: Time, s: BookingStatus)
    requires target != Pending && s != Pending
    ensures var r := Transition(l, target, now);
      && r.status == target
      && r.bookedAt == l.bookedAt
      && StampOf(r, s) == (if s == target && s != Rejected then Some(now) else StampOf(l, s))
  {
  }

  /** "rejected" changes the status and nothing else. */
  lemma RejectionStampsNothing(l: Lifecycle, now: Time)
    ensures Transition(l, Rejected, now) == l.(status := Rejected)
  {
  }

  /** Repeating a transition re-stamps it: the later instant wins. */
  lemma RepeatedTransitionRestamps(l: Lifecycle, target: BookingStatus, first: Time, second: Time)
    ensures Transition(Transition(l, target, first), target, second) == Transition(l, target, second)
  {
  }

  /** Every recorded instant is at or after `booked_at`. */
  predicate StampsNotBeforeBooking(l: Lifecycle)
  {
    && (l.approvedAt.Some? ==> l.bookedAt <= l.approvedAt.value)
    && (l.cancelledAt.Some? ==> l.bookedAt <= l.cancelledAt.value)
    && (l.completedAt.Some? ==> l.bookedAt <= l.completedAt.value)
  }

  /** With a clock that does not run backwards, transitions keep the instants ordered. */
  lemma TransitionKeepsStampOrder(l: Lifecycle, target: BookingStatus, now: Time)
    requires StampsNotBeforeBooking(l) && l.bookedAt <= now
    ensures StampsNotBeforeBooking(Transition(l, target, now))
  {
  }

  /**
   * The status need not match the latest instant: approving then rejecting
   * leaves a rejected booking that still records its approval.
   */
  lemma ApprovalSurvivesRejection(l: Lifecycle, approved: Time, rejected: Time)
    ensures var r := Transition(Transition(l, Approved, approved), Rejected, rejected);
      r.status == Rejected && r.approvedAt == Some(approved)
  {
  }

  /** The notification of a booking transition, sent to the student. */
  function BookingNotice(student: UserId, target: BookingStatus, booking: BookingId): Notification
  {
    Notification(student, "booking_" + BookingStatusValue(target),
                 "Booking " + Capitalize(BookingStatusValue(target)), Some(booking), None, None)
  }

  /** The notice names the target by its stored value and its label. */
  lemma BookingNoticeNamesTarget(student: UserId, target: BookingStatus, booking: BookingId)
    ensures var n := BookingNotice(student, target, booking);
      && n.recipient == student
      && n.kind[..8] == "booking_" && n.kind[8..] == BookingStatusValue(target)
      && n.title == "Booking " + BookingStatusLabel(target)
  {
    CapitalizedValueIsLabel(target);
  }

  /**
   * `update_booking_status`: the landlord gate, the lookup filtered by
   * `landlord=request.user`, the whitelist, then the method.
   */
  function BookingUpdateDecision(user: User, found: bool, bookingLandlord: UserId, statusText: string, m: Method)
    : (r: Response)
    ensures LandlordRequired(user) != Invoke ==> r == LandlordRequired(user).response
    ensures r == NotFound <==> LandlordRequired(user) == Invoke && (!found || bookingLandlord != user.id)
    ensures r == InvalidStatus <==> (LandlordRequired(user) == Invoke && found && bookingLandlord == user.id
                                   && ParseBookingTarget(statusText).None?)
    ensures r == Done <==> (LandlordRequired(user) == Invoke && found && bookingLandlord == user.id
                          && ParseBookingTarget(statusText).Some? && m.Post?)
    ensures r == Unchanged <==> (LandlordRequired(user) == Invoke && found && bookingLandlord == user.id
                               && ParseBookingTarget(statusText).Some? && m.Get?)
  {
    if LandlordRequired(user) != Invoke then LandlordRequired(user).response
    else
      if !found || bookingLandlord != user.id then NotFound
      else if ParseBookingTarget(statusText).None? then InvalidStatus
      else if m.Get? then Unchanged
      else Done
  }

  /**
   * Only the booking's own landlord reaches the change; staff who are not
   * that landlord get "not found".
   */
  lemma OnlyTheLandlordUpdatesABooking(user: User, found: bool, bookingLandlord: UserId, statusText: string, m: Method)
    ensures BookingUpdateDecision(user, found, bookingLandlord, statusText, m) == Done ==>
      user.isAuthenticated && user.id == bookingLandlord
    ensures user.isAuthenticated && user.isStaff && found && bookingLandlord != user.id ==>
      BookingUpdateDecision(user, found, bookingLandlord, statusText, m) == NotFound
  {
  }

  method UpdateBookingStatus(user: User, booking: Booking?, statusText: string, m: Method, now: Time,
                             log: NotificationLog)
    returns (resp: Response)
    modifies booking, log
    ensures resp == BookingUpdateDecision(user, booking != null,
                                          if booking != null then old(booking.landlord) else 0, statusText, m)
    ensures resp != Done ==> log.sent == old(log.sent) && (booking != null ==> unchanged(booking))
    ensures resp == Done ==> booking != null
    ensures resp == Done && booking != null ==>
      var target := ParseBookingTarget(statusText).value;
      && booking.Stamps() == Transition(old(booking.Stamps()), target, now)
      && booking.student == old(booking.student) && booking.landlord == old(booking.landlord)
      && booking.property == old(booking.property) && booking.totalPrice == old(booking.totalPrice)
      && booking.checkIn == old(booking.checkIn) && booking.checkOut == old(booking.checkOut)
      && booking.occupants == old(booking.occupants)
      && booking.studentMessage == old(booking.studentMessage)
      && booking.paymentStatus == old(booking.paymentStatus)
      && log.sent == old(log.sent) + [BookingNotice(booking.student, target, booking.id)]
  {
    resp := BookingUpdateDecision(user, booking != null,
                                  if booking != null then booking.landlord else 0, statusText, m);
    if resp == Done {
      var target := ParseBookingTarget(statusText).value;
      booking.status := target;
      if target == Approved {
        booking.approvedAt := Some(now);
      } else if target == Cancelled {
        booking.cancelledAt := Some(now);
      } else if target == Completed {
        booking.completedAt := Some(now);
      }
      log.Send(BookingNotice(booking.student, target, booking.id));
    }
  }

  // ---------------------------------------------------------------------
  // Booking detail

  /**
   * `booking_detail`: login, the lookup, the viewer check (student,
   * landlord or staff), then the page with its three action flags.
   */
  function BookingDetail(user: User, booking: Booking?): (r: Response)
    reads booking
    ensures !user.isAuthenticated ==> r == ToLogin
    ensures user.isAuthenticated && booking == null ==> r == NotFound
    ensures r.BookingPage? <==> (user.isAuthenticated && booking != null
      && (user.id == booking.student || user.id == booking.landlord || user.isStaff))
    ensures (user.isAuthenticated && booking != null
             && !(user.id == booking.student || user.id == booking.landlord || user.isStaff)) ==> r == Forbidden
    ensures r.BookingPage? ==>
      && (r.canApprove <==> user.id == booking.landlord && booking.status == Pending)
      && (r.canComplete <==> user.id == booking.landlord && booking.status == Approved)
      && (r.canCancel <==>
            || (user.id == booking.student && booking.status in {Pending, Approved})
            || (user.id == booking.landlord && booking.status == Pending))
  {
    if !user.isAuthenticated then ToLogin
    else if booking == null then NotFound
    else if !(user.id == booking.student || user.id == booking.landlord || user.isStaff) then Forbidden
    else
      BookingPage(
        user.id == booking.landlord && booking.status == Pending,
        (user.id == booking.student && (booking.status == Pending || booking.status == Approved))
          || (user.id == booking.landlord && booking.status == Pending),
        user.id == booking.landlord && booking.status == Approved)
  }

  /**
   * The detail page offers a student "cancel", but the update view admits
   * landlords and staff only, so a student who is not staff is sent to the
   * dashboard instead.
   */
  lemma OfferedCancelIsRefusedToStudent(user: User, booking: Booking, m: Method)
    requires user.isAuthenticated && user.userType == Student && !user.isStaff
    requires user.id == booking.student && booking.status == Pending
    ensures BookingDetail(user, booking).BookingPage? && BookingDetail(user, booking).canCancel
    ensures BookingUpdateDecision(user, true, booking.landlord, "cancelled", m) == ToDashboard
  {
  }

  /**
   * A landlord-type user who is offered an action on their booking can
   * carry it out.
   */
  lemma OfferedLandlordActionsSucceed(user: User, booking: Booking)
    requires user.isAuthenticated && user.userType == Landlord && user.id == booking.landlord
    ensures var page := BookingDetail(user, booking);
      && page.BookingPage?
      && (page.canApprove ==> BookingUpdateDecision(user, true, booking.landlord, "approved", Post) == Done)
      && (page.canComplete ==> BookingUpdateDecision(user, true, booking.landlord, "completed", Post) == Done)
      && (page.canCancel ==> BookingUpdateDecision(user, true, booking.landlord, "cancelled", Post) == Done)
  {
  }

  // ---------------------------------------------------------------------
  // Creating bookings and inquiries

  /**
   * The shared shape of `create_booking` and `create_inquiry`: the student
   * gate, the lookup of an active property, then a form page on GET or on
   * invalid input, and the creation otherwise.
   */
  function CreateDecision(user: User, property: Option<Property>, m: Method, formValid: bool): (r: Response)
    ensures StudentRequired(user) != Invoke ==> r == StudentRequired(user).response
    ensures r == NotFound <==> StudentRequired(user) == Invoke && (property.None? || !property.value.isActive)
    ensures r == Done <==> (StudentRequired(user) == Invoke && property.Some? && property.value.isActive
                          && m.Post? && formValid)
    ensures r == Rendered <==> (StudentRequired(user) == Invoke && property.Some? && property.value.isActive
                              && (m.Get? || !formValid))
  {
    if StudentRequired(user) != Invoke then StudentRequired(user).response
    else
      if property.None? || !property.value.isActive then NotFound
      else if m.Get? || !formValid then Rendered
      else Done
  }

  /** The cleaned fields of a booking form. */
  datatype BookingRequest = BookingRequest(checkIn: Date, checkOut: Date, occupants: int, message: string)

  /** Nonexistent dates never pass a date field, so they make the form invalid. */
  predicate BookingFormValid(formValid: bool, request: BookingRequest)
  {
    formValid && Valid(request.checkIn) && Valid(request.checkOut)
  }

  /**
   * `create_booking`: the new booking belongs to the requesting student,
   * the looked-up property and that property's landlord, is priced from the
   * monthly price and the stay, and one "booking_request" notification goes
   * to the landlord.
   */
  method CreateBooking(user: User, property: Option<Property>, m: Method, formValid: bool,
                       request: BookingRequest, newId: BookingId, now: Time, log: NotificationLog)
    returns (resp: Response, booking: Booking?)
    modifies log
    ensures resp == CreateDecision(user, property, m, BookingFormValid(formValid, request))
    ensures resp != Done ==> booking == null && log.sent == old(log.sent)
    ensures resp == Done ==> booking != null && fresh(booking) && property.Some?
    ensures resp == Done && booking != null && property.Some? ==>
      var p := property.value;
      && booking.id == newId && booking.student == user.id
      && booking.property == p.id && booking.landlord == p.landlord
      && booking.checkIn == request.checkIn && booking.checkOut == request.checkOut
      && booking.occupants == request.occupants && booking.studentMessage == request.message
      && booking.paymentStatus == "pending"
      && booking.totalPrice == BookingPrice(p.pricePerMonth, request.checkIn, request.checkOut)
      && booking.Stamps() == Lifecycle(Pending, now, None, None, None)
      && log.sent == old(log.sent)
           + [Notification(p.landlord, "booking_request", "New Booking Request", Some(newId), None, Some(p.id))]
  {
    resp := CreateDecision(user, property, m, BookingFormValid(formValid, request));
    booking := null;
    if resp == Done {
      var p := property.value;
      var months := DurationMonths(request.checkIn, request.checkOut);
      if months < 1 {
        months := 1;
      }
      booking := new Booking(newId, user.id, p.id, p.landlord, request.checkIn, request.checkOut,
                             request.occupants, request.message, p.pricePerMonth * months, now);
      log.Send(Notification(p.landlord, "booking_request", "New Booking Request", Some(newId), None, Some(p.id)));
    }
  }

  /**
   * `create_inquiry`: the new inquiry belongs to the requesting student and
   * the looked-up property, starts as "new", and one "inquiry" notification
   * goes to the property's landlord.
   */
  method CreateInquiry(user: User, property: Option<Property>, m: Method, formValid: bool,
                       message: string, newId: InquiryId, now: Time, log: NotificationLog)
    returns (resp: Response, inquiry: Inquiry?)
    modifies log
    ensures resp == CreateDecision(user, property, m, formValid)
    ensures resp != Done ==> inquiry == null && log.sent == old(log.sent)
    ensures resp == Done ==> inquiry != null && fresh(inquiry) && property.Some?
    ensures resp == Done && inquiry != null && property.Some? ==>
      var p := property.value;
      && inquiry.id == newId && inquiry.student == user.id && inquiry.property == p.id
      && inquiry.message == message && inquiry.status == New && inquiry.createdAt == now && inquiry.updatedAt == now
      && log.sent == old(log.sent)
           + [Notification(p.landlord, "inquiry", "New Property Inquiry", None, Some(newId), Some(p.id))]
  {
    resp := CreateDecision(user, property, m, formValid);
    inquiry := null;
    if resp == Done {
      var p := property.value;
      inquiry := new Inquiry(newId, p.id, user.id, message, now);
      log.Send(Notification(p.landlord, "inquiry", "New Property Inquiry", None, Some(newId), Some(p.id)));
    }
  }

  // ---------------------------------------------------------------------
  // Inquiry status update

  /** The status whitelist of `update_inquiry_status`. */
  function ParseInquiryTarget(s: string): (t: Option<InquiryStatus>)
    ensures t.Some? <==> s == "contacted" || s == "responded" || s == "closed"
    ensures t.Some? ==> InquiryStatusValue(t.value) == s && t.value != New
  {
    if s == "contacted" then Some(Contacted)
    else if s == "responded" then Some(Responded)
    else if s == "closed" then Some(Closed)
    else None
  }

  /** Every inquiry status but "new" is a target, named by its stored value. */
  lemma ParseInquiryTargetRoundTrip(t: InquiryStatus)
    ensures ParseInquiryTarget(InquiryStatusValue(t)) == if t == New then None else Some(t)
  {
    var r := ParseInquiryTarget(InquiryStatusValue(t));
    if r.Some? {
      StatusValuesDistinct(Pending, Pending, r.value, t);
    }
  }

  /**
   * `update_inquiry_status`: login, the lookup, the landlord-or-staff
   * check, the whitelist, then the method.
   */
  function InquiryUpdateDecision(user: User, found: bool, propertyLandlord: UserId, statusText: string, m: Method)
    : (r: Response)
    ensures !user.isAuthenticated ==> r == ToLogin
    ensures r == NotFound <==> user.isAuthenticated && !found
    ensures r == Forbidden <==> user.isAuthenticated && found && user.id != propertyLandlord && !user.isStaff
    ensures r == InvalidStatus <==> (user.isAuthenticated && found && (user.id == propertyLandlord || user.isStaff)
                                   && ParseInquiryTarget(statusText).None?)
    ensures r == Done <==> (user.isAuthenticated && found && (user.id == propertyLandlord || user.isStaff)
                          && ParseInquiryTarget(statusText).Some? && m.Post?)
    ensures r == Unchanged <==> (user.isAuthenticated && found && (user.id == propertyLandlord || user.isStaff)
                               && ParseInquiryTarget(statusText).Some? && m.Get?)
  {
    if LoginRequired(user) != Invoke then LoginRequired(user).response
    else
      if !found then NotFound
      else if !(user.id == propertyLandlord || user.isStaff) then Forbidden
      else if ParseInquiryTarget(statusText).None? then InvalidStatus
      else if m.Get? then Unchanged
      else Done
  }

  /** The notification of an inquiry response, sent to the student. */
  function InquiryNotices(student: UserId, target: InquiryStatus, inquiry: InquiryId): (ns: seq<Notification>)
    ensures |ns| == (if target == Responded then 1 else 0)
    ensures forall n :: n in ns ==> n.recipient == student && n.kind == "inquiry_response"
  {
    if target == Responded then [Notification(student, "inquiry_response", "Inquiry Response", None, Some(inquiry), None)]
    else []
  }

  /**
   * The three targets differ only in the notice: the student hears of
   * "responded" and of nothing else.
   */
  lemma OnlyResponseNotifies(student: UserId, inquiry: InquiryId)
    ensures |InquiryNotices(student, Responded, inquiry)| == 1
    ensures InquiryNotices(student, Contacted, inquiry) == [] && InquiryNotices(student, Closed, inquiry) == []
  {
  }

  /**
   * The property's landlord and staff may update an inquiry; a student
   * (even the inquiry's author) who is neither is refused.
   */
  lemma InquiryUpdateNeedsLandlordOrStaff(user: User, found: bool, propertyLandlord: UserId, statusText: string, m: Method)
    ensures InquiryUpdateDecision(user, found, propertyLandlord, statusText, m) == Done ==>
      user.id == propertyLandlord || user.isStaff
    ensures user.isAuthenticated && found && user.id != propertyLandlord && !user.isStaff ==>
      InquiryUpdateDecision(user, found, propertyLandlord, statusText, m) == Forbidden
  {
  }

  /**
   * The method sets the status and `updated_at` (an auto-now field) and
   * sends the response notice; the property's landlord is read through
   * `landlords`, the inquiry's property being a foreign key.
   */
  method UpdateInquiryStatus(user: User, inquiry: Inquiry?, landlords: map<PropertyId, UserId>,
                             statusText: string, m: Method, now: Time, log: NotificationLog)
    returns (resp: Response)
    requires inquiry != null ==> inquiry.property in landlords
    modifies inquiry, log
    ensures resp == InquiryUpdateDecision(user, inquiry != null,
                                          if inquiry != null then old(landlords[inquiry.property]) else 0,
                                          statusText, m)
    ensures resp != Done ==> log.sent == old(log.sent) && (inquiry != null ==> unchanged(inquiry))
    ensures resp == Done ==> inquiry != null
    ensures resp == Done && inquiry != null ==>
      var target := ParseInquiryTarget(statusText).value;
      && inquiry.status == target && inquiry.updatedAt == now
      && inquiry.student == old(inquiry.student) && inquiry.property == old(inquiry.property)
      && inquiry.message == old(inquiry.message) && inquiry.createdAt == old(inquiry.createdAt)
      && log.sent == old(log.sent) + InquiryNotices(inquiry.student, target, inquiry.id)
  {
    resp := InquiryUpdateDecision(user, inquiry != null,
                                  if inquiry != null then landlords[inquiry.property] else 0, statusText, m);
    if resp == Done {
      var target := ParseInquiryTarget(statusText).value;
      inquiry.status := target;
      inquiry.updatedAt := now;
      if target == Responded {
        log.Send(Notification(inquiry.student, "inquiry_response", "Inquiry Response", None, Some(inquiry.id), None));
      }
    }
  }
}
