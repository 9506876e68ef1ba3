# Student housing: bookings, listings and access rules in Dafny

This project models the rule-bearing core of a Django student-housing site.
Students search rental listings, favourite them, send inquiries and request
bookings. Landlords publish listings and answer bookings and inquiries.
Staff may pass every role check. The model covers four areas.

- **Booking lifecycle** (`bookings/models.py`, `bookings/views.py`):
  - the booking and inquiry status enumerations and `Booking.duration_months`;
  - the price of a new booking and the creation of bookings and inquiries;
  - the booking detail page's viewer check and its `can_approve` / `can_cancel` / `can_complete` flags;
  - the two status-update views and the notifications they write.
- **Listing search** (`properties/views.py`, `properties/forms.py`):
  - the search form's field cleaning and its min/max check;
  - the chain of `queryset.filter` refinements in `get_queryset`, followed by the ordering;
  - the listing form's date check;
  - comma-separated amenity parsing;
  - the favourite toggle, soft delete, and the amenity part of the create and update views.
- **Listing model** (`properties/models.py`): the type enumerations, `amenities_list`,
  `display_price` and `primary_image`.
- **Accounts and templates** (`accounts/decorators.py`, `accounts/forms.py`, `housing/jinja2.py`):
  - the four access decorators;
  - the phone-number pattern, the password-confirmation rule and the two `save` methods;
  - the `time_ago` filter and the role helpers.

Conventions:

- Money is held in integer cents.
- Instants are integer microseconds, and the clock is always a parameter (`now`).
- Identifiers are naturals.
- A view's outcome is a `Response` value: a redirect, a not-found, a rendered page, an unchanged
  redirect or a completed change. Flash messages and page content are dropped.
- Rows the views change in place are classes:
  - `Booking` and `Inquiry`;
  - the notification table `NotificationLog`;
  - the listing tables `ListingStore` and the account tables `AccountStore`.
- Rows that are only read are datatypes (`Property`, `User`).
- Each view is split into two parts:
  - a decision function that says which response it gives;
  - a method that carries out the change on the loaded objects.

The files, one module each:

- `types.dfy`: identifiers, instants, `Option`, `Response`.
- `text.dfy`: digits, comma grouping, ASCII case, strip, split and join.
- `calendar.dfy`: dates and relativedelta month arithmetic.
- `accounts.dfy`: the user entity.
- `template_helpers.dfy`: `housing/jinja2.py`.
- `decorators.dfy`: `accounts/decorators.py`.
- `account_forms.dfy`: `accounts/forms.py`.
- `listings.dfy`: `properties/models.py`.
- `listing_forms.dfy`: `properties/forms.py`.
- `listing_views.dfy`: `properties/views.py`.
- `booking_models.dfy`: `bookings/models.py`.
- `booking_views.dfy`: `bookings/views.py`.

Behaviour of the code worth knowing:

- **No admin override.** `update_booking_status` looks the booking up filtered by
  `landlord=request.user`. So staff who are not the booking's landlord get "not found".
- **Status and timestamps can disagree.** Rejecting an approved booking keeps its `approved_at`.
- **Invalid search.** A search form that fails validation applies no refinement. It lists every
  active listing and reports no error.
- **Ordering ties.** The ordering has no tie-breaker. The model sorts stably, keeping stored order
  among listings with equal keys.

## Model

| member | source | states |
|---|---|---|
| BookingModels.StatusValuesDistinct | bookings/models.py:8-14 | The status enumerations list every status once (five for bookings, four for inquiries), and distinct statuses have distinct stored values. |
| BookingModels.CapitalizedValueIsLabel | bookings/views.py:127 | `str.capitalize()` of a stored booking status value is its human label, as used in the notification title. |
| BookingModels.Capitalize | bookings/views.py:127 | Capitalising keeps the length, upper-cases the first character and lower-cases every other one. |
| BookingModels.DurationMonths | bookings/models.py:56-60 | `duration_months` is the relativedelta month total `years * 12 + months` of the stay; its meaning is pinned down by the three lemmas below. |
| BookingModels.DurationMonthsForward | bookings/models.py:56-60 | For check-out not before check-in, the duration is ≥ 0 and is the largest k with check-in + k months (day clamped) not after check-out. Leftover days are dropped. |
| BookingModels.DurationMonthsBackward | bookings/models.py:56-60 | A check-out before check-in gives a duration of zero or less. |
| BookingModels.ShortStayIsZeroMonths | bookings/models.py:56-60 | A forward stay shorter than one calendar month has duration 0. |
| BookingModels.DurationMonthsExamples | bookings/models.py:56-60 | 1 Jan → 1 Apr is 3 months, 1 Jan → 20 Jan is 0, and 31 Jan → 28 Feb (a clamped month) is 1. |
| BookingModels.Booking.constructor | bookings/models.py:35-46 | A new booking is "pending" with `booked_at` = now, the other three instants empty, and payment "pending". |
| BookingModels.Inquiry.constructor | bookings/models.py:74-76 | A new inquiry has status "new" and both instants set to its creation time. |
| Calendar.AddMonths | bookings/models.py:59 | Adding k months moves the month index by exactly k and clamps the day to the target month's length. |
| Calendar.RelativeMonths | bookings/models.py:59 | The relativedelta month total differs from the difference of the calendar month indices by at most one; the next three lemmas characterise it exactly. |
| Calendar.RelativeMonthsForward | bookings/models.py:59-60 | The relativedelta month total of a forward span is the largest k ≥ 0 whose k-month step is not after the end; one more month passes it. |
| Calendar.RelativeMonthsBackward | bookings/models.py:59-60 | For a backward span the total is the mirror image: ≤ 0, truncated toward zero. |
| Calendar.RelativeMonthsIsLargest | bookings/models.py:59-60 | No larger month count than the relativedelta total fits into a forward span. |
| Calendar.SplitMonths | bookings/models.py:60 | The years and months fields carry the span's sign, the months are within ±11, and `years * 12 + months` is the total. |
| BookingViews.BillableMonths | bookings/views.py:28-30 | The billed months are ≥ 1: the duration, or 1 when the duration is below one. |
| BookingViews.BookingPrice | bookings/views.py:28-31 | For a non-negative monthly price the total is at least one month's price; the exact amount is stated by the two lemmas below. |
| BookingViews.ShortStayBilledAsOneMonth | bookings/views.py:28-31 | A stay shorter than one month, or a check-out before check-in, costs exactly one month's price. |
| BookingViews.LongStayBilledByWholeMonths | bookings/views.py:28-31 | A stay of at least one month costs price × k, where k months fit between the dates and k + 1 do not. |
| BookingViews.BookingPriceExample | bookings/views.py:28-31 | 1 Jan → 1 Apr at 500.00 a month costs 1500.00. |
| BookingViews.CreateDecision | bookings/views.py:14-21 | The student gate, then not-found unless the property exists and is active, then a form page on GET or an invalid form, and the creation exactly on a valid POST. |
| BookingViews.CreateBooking | bookings/views.py:14-46 | On success a fresh booking has the requesting student, the looked-up property, that property's landlord, the stay dates, the occupants and the message. It costs `BookingPrice`, starts pending with payment pending, and exactly one "booking_request" notification goes to the landlord. Otherwise nothing is created or sent. |
| BookingViews.CreateInquiry | bookings/views.py:136-160 | On success a fresh inquiry has the student, the property and the message, with status "new". Exactly one "inquiry" notification goes to the property's landlord. Otherwise nothing is created or sent. |
| BookingViews.BookingDetail | bookings/views.py:79-97 | Anonymous users go to the login page and a missing booking is not-found. A signed-in user who is not the booking's student, its landlord or staff is refused. The page is shown iff the viewer is one of those. `can_approve` iff landlord and pending; `can_complete` iff landlord and approved; `can_cancel` iff (student and pending/approved) or (landlord and pending). |
| BookingViews.OfferedCancelIsRefusedToStudent | bookings/views.py:93-100 | A student who is offered "cancel" is turned away by the update view's landlord gate. |
| BookingViews.OfferedLandlordActionsSucceed | bookings/views.py:92-118 | Every action offered to the booking's landlord-type user is accepted by the update view on POST. |
| BookingViews.ParseBookingTarget | bookings/views.py:104-105 | Exactly "approved", "rejected", "cancelled" and "completed" are accepted, each as the status stored under that value; "pending" is not. |
| BookingViews.ParseBookingTargetRoundTrip | bookings/views.py:104-105 | Every status but pending is reached from its own stored value. |
| BookingViews.BookingUpdateDecision | bookings/views.py:99-109 | The landlord gate; then not-found unless the booking exists and its landlord is the user; then invalid-status outside the whitelist; then the change exactly on POST. |
| BookingViews.OnlyTheLandlordUpdatesABooking | bookings/views.py:102 | Only the booking's landlord reaches the change. Staff who are not that landlord get not-found. |
| BookingViews.Transition | bookings/views.py:110-118 | The POST branch sets the status to the target, keeps `booked_at`, and stamps `now` on the target's own instant when it has one. |
| BookingViews.TransitionStampsOnlyTarget | bookings/views.py:110-118 | Any whitelisted target is reached from any status. `booked_at` is kept, only the target's instant is stamped (none for rejected), and the other instants are untouched. |
| BookingViews.RejectionStampsNothing | bookings/views.py:110-118 | Rejecting changes the status and no instant. |
| BookingViews.RepeatedTransitionRestamps | bookings/views.py:110-118 | Repeating a transition re-stamps its instant with the later time. |
| BookingViews.TransitionKeepsStampOrder | bookings/views.py:110-118 | With a clock not earlier than `booked_at`, every recorded instant stays at or after `booked_at`. |
| BookingViews.ApprovalSurvivesRejection | bookings/views.py:110-118 | Approve then reject leaves a rejected booking that still records its approval time. |
| BookingViews.BookingNoticeNamesTarget | bookings/views.py:124-130 | The notice goes to the student, its type is "booking_" + the target value, and its title is "Booking " + the target's label. |
| BookingViews.UpdateBookingStatus | bookings/views.py:99-134 | The response is `BookingUpdateDecision`. On a change the lifecycle becomes `Transition(old, target, now)`, all other fields are kept, and exactly one notice is appended. Otherwise neither the booking nor the log changes. |
| BookingViews.ParseInquiryTarget | bookings/views.py:200-201 | Exactly "contacted", "responded" and "closed" are accepted, each as its own status; "new" is not. |
| BookingViews.ParseInquiryTargetRoundTrip | bookings/views.py:200-201 | Every inquiry status but new is reached from its own stored value. |
| BookingViews.InquiryUpdateDecision | bookings/views.py:191-205 | Login; then not-found; then refusal unless the user is the property's landlord or staff; then invalid-status outside the whitelist; then the change exactly on POST. |
| BookingViews.InquiryUpdateNeedsLandlordOrStaff | bookings/views.py:196 | A change implies landlord or staff. Anyone else who is signed in is refused. |
| BookingViews.InquiryNotices | bookings/views.py:209-218 | One "inquiry_response" notice to the student when the target is responded, none otherwise. |
| BookingViews.OnlyResponseNotifies | bookings/views.py:209-218 | "responded" sends one notice; "contacted" and "closed" send none. |
| BookingViews.UpdateInquiryStatus | bookings/views.py:191-222 | The response is `InquiryUpdateDecision`. On a change the status becomes the target, `updated_at` becomes now, the other fields are kept, and the log grows by `InquiryNotices`. Otherwise nothing changes. |
| BookingViews.NotificationLog.Send | bookings/views.py:123-130 | Sending appends exactly that notification to the log. |
| Listings.EnumerationsComplete | properties/models.py:7-22 | The type enumerations have six and five values, each listed once, and distinct values are stored distinctly. |
| Listings.AmenitiesList | properties/models.py:101-122 | The result is the labels of the set flags, taken in the fixed order Furnished … WiFi Included. |
| Listings.AmenityListedIffOffered | properties/models.py:102-122 | A label is in `amenities_list` iff its flag is set. |
| Listings.AmenitiesListOrdered | properties/models.py:103-122 | The labels follow the fixed order, none repeats, and there are at most nine. |
| Listings.AmenitiesListEmpty | properties/models.py:103-122 | The list is empty iff no flag is set. |
| Listings.OfferedSound | properties/models.py:104-121 | Only offered amenities of the tested order are listed. |
| Listings.OfferedComplete | properties/models.py:104-121 | Every offered amenity of the tested order is listed. |
| Listings.OfferedKeepsOrder | properties/models.py:104-121 | Listing preserves the tested order. |
| Listings.DisplayPrice | properties/models.py:97-99 | The rendering starts with "$" and ends with "/month"; its middle is described by the two lemmas below. |
| Listings.PricePartsReadBack | properties/models.py:99 | The comma-grouped whole units, a point and two decimals read back as the price's magnitude in cents. |
| Listings.DisplayPriceFormat | properties/models.py:99 | `display_price` is "$", a minus for a negative amount, comma-grouped units without leading zeros, ".", exactly two decimals, then "/month", and reads back as the price. |
| Listings.PrimaryImage | properties/models.py:93-95 | None iff there is no image. Otherwise a primary image if any exists, else the first image. |
| Listings.PrimaryImageIsEarliestPrimary | properties/models.py:95 | The chosen primary image is the earliest one in image order. |
| Listings.FirstPrimaryIndex | properties/models.py:95 | The index found is a primary image and no earlier image is primary, or it is the length when none is. |
| ListingForms.ParseTypeRoundTrip | properties/models.py:7-22 | Parsing a stored type value gives back that type. |
| ListingForms.ChoicesAreEnumerations | properties/forms.py:74-83 | Each select's choices are "" followed by exactly the model's values, so a value is valid iff it is empty or names a type. |
| ListingForms.NumberErrors | properties/forms.py:66-84 | A number field with `min_value=0` has no error iff it is blank or a non-negative number. |
| ListingForms.CleanFields | properties/forms.py:57-91 | Field cleaning reports nothing iff all three numbers are blank or non-negative and both choices are valid. It never reports the min/max error. |
| ListingForms.CleanSearch | properties/forms.py:93-101 | `clean` keeps the cleaned data and adds only the min/max error. The error is added iff both bounds are numbers, the maximum is positive and the minimum exceeds it. |
| ListingForms.NegativeNumbersRejected | properties/forms.py:66-84 | A negative min price, max price or bedroom count is an error of that field. |
| ListingForms.ValidSearchHasNoNegatives | properties/forms.py:66-101 | A valid form's numbers are non-negative, and truthy bounds are ordered. |
| ListingForms.CleanPropertyForm | properties/forms.py:47-55 | The dates are returned unchanged, and only the date error is added. It is added iff both dates are present and "to" is before "from". |
| ListingForms.SameDayAvailabilityPasses | properties/forms.py:52 | Equal dates pass. |
| ListingViews.Where | properties/views.py:20-64 | One `filter`: a row is kept iff it is in the input and satisfies the filter, with no row gained. |
| ListingViews.ApplyFilters | properties/views.py:20-64 | Successive filters keep exactly the rows satisfying all of them, with no row gained. |
| ListingViews.RefinementsSound | properties/views.py:20-64 | A row passing the whole chain is active and meets every truthy criterion. |
| ListingViews.RefinementsComplete | properties/views.py:20-64 | An active row meeting every truthy criterion passes the whole chain. |
| ListingViews.SearchMembership | properties/views.py:19-68 | With a valid form a listing is returned iff it is stored, active, matches the query in one of five fields (ignoring case) and meets every truthy criterion, with inclusive bounds. With an invalid form it is returned iff stored and active. The result is ordered and gains no rows. |
| ListingViews.Search | properties/views.py:19-68 | The search never returns a row more often than it is stored; its membership and counts are stated by the lemmas around it. |
| ListingViews.SearchCount | properties/views.py:19-68 | Each qualifying listing (matching a valid form, or active for an invalid one) is returned exactly as often as it is stored; any other listing is not returned. |
| ListingViews.ResultsCount | properties/views.py:23-67 | The same count for the filter chain chosen by the form's validity, followed by the ordering. |
| ListingViews.WhereCount | properties/views.py:20-64 | One `filter` keeps every copy of a row that satisfies it and no copy of any other. |
| ListingViews.ApplyFiltersCount | properties/views.py:20-64 | A chain of filters keeps every copy of a row that passes all of them and no copy of any other. |
| ListingViews.SearchResultsActive | properties/views.py:20 | Every search result is active. |
| ListingViews.InvalidSearchListsEveryActive | properties/views.py:23-24 | An invalid form lists every active listing, each as often as it is stored. |
| ListingViews.FalsyCriteriaAddNothing | properties/views.py:37-64 | A zero bound or bedroom count, empty text and unset flags add no refinement; what remains is the active filter. |
| ListingViews.UnfilteredKeepsAll | properties/views.py:37-64 | A skipped refinement keeps the rows exactly. |
| ListingViews.OrderListings | properties/views.py:67 | Ordering is a permutation of the rows. |
| ListingViews.OrderListingsOrdered | properties/views.py:67 | Ordered rows list verified before unverified, then newer before older. |
| ListingViews.InsertOrdered | properties/views.py:67 | Inserting into an ordered sequence keeps it ordered. |
| ListingViews.ParseAmenities | properties/views.py:155 | Every parsed name is non-empty, stripped and free of commas. Which names are kept, and in what order, is stated by the lemmas below. |
| ListingViews.CleanPieces | properties/views.py:155 | Every kept piece is stripped and non-empty, and there are no more names than pieces. |
| ListingViews.CleanSinglePiece | properties/views.py:155 | One piece gives its stripped text, or nothing when it is blank. |
| ListingViews.CleanPiecesAppend | properties/views.py:155 | Cleaning a sequence of pieces is cleaning each piece on its own, with the results concatenated in piece order. Together with `CleanSinglePiece` this fixes the result exactly. |
| ListingViews.CleanPiecesMembership | properties/views.py:155 | A name is kept iff it is the non-blank strip of some piece. |
| ListingViews.ParseAmenitiesAfterPiece | properties/views.py:155 | The text before the first comma gives the first name, or nothing when that piece is blank, and the rest of the text gives the remaining names. |
| ListingViews.ParseAmenitiesSkipsBlankPiece | properties/views.py:155 | A blank piece between two commas adds no name: "a, ,b" parses as "a,b". |
| ListingViews.ParseJoinedAmenities | properties/views.py:197-213 | Names joined by ", " (the update page's pre-fill) parse back to the same names in the same order. |
| ListingViews.ParseAmenitiesStable | properties/views.py:155 | Parsing, joining and parsing again gives the same names. |
| ListingViews.ParseSingleAmenity | properties/views.py:155 | A comma-free text is one stripped name, or none when blank. |
| ListingViews.Toggle | properties/views.py:237-250 | A toggle flips whether the user has favourited the listing, leaves every other favourite alone, and changes no listing field but `favorite_count`. |
| ListingViews.ToggleTwiceRestores | properties/views.py:237-250 | Toggling a favourite twice restores the favourite table and the listing. |
| ListingViews.ToggleKeepsCount | properties/views.py:237-250 | A toggle changes only that user's favourite of that listing and keeps `favorite_count` equal to the number of users who favourited it. |
| ListingViews.FavoriteDecision | properties/views.py:232-236 | Login, then not-found unless the listing exists and is active, then the change exactly on POST. |
| ListingViews.OwnerDecision | properties/views.py:219-226 | The landlord gate; then not-found unless the listing is the user's; then the change exactly on a valid POST. |
| ListingViews.NewListing | properties/views.py:138-141 | A created listing belongs to the requesting landlord and carries every submitted form field the record holds. It is unverified, active and without favourites. |
| ListingViews.EditedListing | properties/views.py:177-179 | After `form.save()` a listing carries every submitted form field the record holds, and keeps its id, owner, creation instant, verification and active flags and favourite count, which the form does not carry. |
| ListingViews.ListingStore.ToggleFavorite | properties/views.py:232-252 | The response is `FavoriteDecision`. On a change the table and that listing become `Toggle` of the old ones, and no other listing changes. Otherwise nothing changes. The favourite counts stay consistent. |
| ListingViews.ListingStore.DeleteProperty | properties/views.py:219-230 | On POST by the owner only `is_active` becomes false. Nothing else changes. |
| ListingViews.ListingStore.CreateProperty | properties/views.py:133-163 | A valid POST stores the new listing and one amenity row per parsed name (none for a blank field). Otherwise nothing is stored. |
| ListingViews.ListingStore.UpdateProperty | properties/views.py:171-217 | GET pre-fills the stored names joined by ", ". A valid POST by the owner replaces that listing with `EditedListing` and changes no other listing. A non-blank amenities field then replaces the names with the parsed ones; a blank field keeps them. Otherwise nothing changes, and the favourite counts stay consistent. |
| ListingViews.DeletedListingNeverListed | properties/views.py:225 | A deleted listing appears in no search. |
| Decorators.UnauthenticatedUser | accounts/decorators.py:5-11 | The view runs iff the user is not signed in. Otherwise the user is sent to the dashboard. |
| Decorators.StudentRequired | accounts/decorators.py:13-21 | The view runs iff the user is signed in and is a student or staff. Refusal is a redirect and never runs the view. |
| Decorators.LandlordRequired | accounts/decorators.py:23-31 | The view runs iff the user is signed in and is a landlord or staff. Refusal is a redirect. |
| Decorators.AdminRequired | accounts/decorators.py:33-41 | The view runs iff the user is signed in and staff. Refusal is a redirect. |
| Decorators.GatesMatchRoleHelpers | accounts/decorators.py:16-36 | The gates admit exactly the users the template role helpers classify. The "admin" user type alone passes no role gate. |
| AccountForms.PhoneNumberShape | accounts/forms.py:15 | `^\+?1?\d{9,15}$` accepts exactly an optional "+" then only digits, 9–15 of them or 10–16 with a leading "1"; the length is 9–17. |
| AccountForms.PhoneNumberErrors | accounts/forms.py:11-19 | The field has no error iff its stripped text matches the pattern. |
| AccountForms.PhoneNumberAccepts | accounts/forms.py:15 | "+1234567890" is accepted. |
| AccountForms.PhoneNumberRejectsShort | accounts/forms.py:15 | Eight digits are rejected. |
| AccountForms.PhoneNumberRejectsDash | accounts/forms.py:15 | A dash is rejected. |
| AccountForms.PasswordChangeErrors | accounts/forms.py:88-117 | The mismatch error is reported iff both new passwords are non-empty and differ. A form without errors has two equal, non-empty new passwords. |
| AccountForms.CleanedPasswordErrors | accounts/forms.py:109-117 | The same on cleaned values. |
| AccountForms.ProfilesFor | accounts/forms.py:44-48 | Registration creates one profile of the user's kind for a student or landlord and none for an admin. |
| AccountForms.AccountStore.SaveRegistration | accounts/forms.py:36-50 | E-mail and phone are copied. With commit the user and its profiles are stored and the one-profile-per-user invariant is kept; without commit nothing is stored. |
| AccountForms.AccountStore.SavePasswordChange | accounts/forms.py:119-123 | The password becomes `new_password1`, and it is stored only with commit. |
| TemplateHelpers.Bucket | housing/jinja2.py:31-46 | More than 365 days gives years (days // 365); 31–365 days gives months; 1–30 days gives days. At 0 or fewer days, over 3600 s gives hours and over 60 s gives minutes. Otherwise "just now". Each count is bounded accordingly. |
| TemplateHelpers.ElapsedSince | housing/jinja2.py:26-29 | No value gives the blank bucket, and only no value does. |
| TemplateHelpers.TimeAgo | housing/jinja2.py:24-46 | The text is empty iff there is no value. |
| TemplateHelpers.DeltaSeconds | housing/jinja2.py:29 | `timedelta.seconds` is always within [0, 86400). |
| TemplateHelpers.CountedReadsBack | housing/jinja2.py:33-44 | A counted phrase starts with the count in decimal and ends in "s ago" iff the count exceeds one. |
| TemplateHelpers.YearBoundary | housing/jinja2.py:31-36 | Exactly 365 days reads "12 months ago"; 366 days reads "1 year ago". |
| TemplateHelpers.HourBoundary | housing/jinja2.py:39-46 | Exactly 3600 s reads "60 minutes ago", 61 s reads "1 minute ago", and 60 s reads "just now". |
| TemplateHelpers.FutureInstantReadsAsHoursAgo | housing/jinja2.py:29-41 | An instant one hour ahead has `days == -1` and reads as 23 hours ago. |
| TemplateHelpers.GetUserType | housing/jinja2.py:69-73 | The user type iff signed in, none otherwise. |
| TemplateHelpers.RoleHelpersFollowUserType | housing/jinja2.py:75-85 | `is_landlord` / `is_student` are `get_user_type` compared with a type; the admin type without staff is not `is_admin`. |

## Left out

- Listings.AmenitiesList: the source writes nine conditional appends. The model keeps the appends but runs them as one loop over the fixed amenity order, whose invariant ties the list to the flags tested so far.
- ListingViews.ListingStore.UpdateProperty: uploaded images are not created, and `updated_at` is not part of the `Property` record.
- ListingViews.ListingStore.CreateProperty: the new identifier is a parameter assumed unused (the source draws a fresh UUID). Uploaded images are not created.
- BookingViews.CreateBooking: the booking form's own field validation (`bookings/forms.py`) is one `formValid` flag; bookings/forms.py is not part of this model. Nonexistent dates make the form invalid.
- BookingViews.UpdateInquiryStatus: the inquiry's property landlord is read from a map passed in, standing for the foreign key.
- Notification message bodies (which embed full names and titles) are not modelled. Only recipient, type, title and the ids in `data` are kept.
- Flash messages, template contexts, pagination, `select_related` and redirects' target URLs are not modelled. Redirects are `Response` values.
- `booking_list`, `inquiry_list`, `my_properties`, `my_favorites` and `PropertyListView.get_context_data` only count or list rows for display, and are left out.
- `PropertyDetailView.get_context_data` is left out: the view count, related listings and reviews depend on a reviews app that is not part of this model.
- Uploaded files (`PropertyImage` creation, `request.FILES`), password hashing (`check_password` is a boolean parameter) and widget attributes are not modelled.
- `stars` and `format_currency` work on floats, and `naturaltime`, `naturalday`, `intcomma` and `format_date` are thin library wrappers. All six are left out.
- Case-insensitive matching is ASCII lower-casing followed by substring search. Database collations and Unicode case folding are not modelled.
- Python's `\d` also matches non-ASCII digits. The model accepts ASCII digits only.
- ListingForms.CleanFields: decimal text parsing is not modelled. A number field arrives as blank, a number of cents, or malformed. Sub-cent values are not representable.
- Dates are proleptic Gregorian with unbounded years. The 1–9999 range of `datetime.date` is not enforced.
- Concurrent requests (the read-modify-write on `favorite_count`, simultaneous status updates) are not modelled. The model is sequential.
- `view_count` and `verification_notes` and other listing fields no modelled rule reads are omitted from the `Property` record.
