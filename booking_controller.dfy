/** The booking handlers of controllers/bookingController.js that decide
    something: `createBooking` (owner stamping, the property lookup, the
    price of the stay), the user filter of `getMyBookings`, and the load / not-found / owner-or-admin / mutate
    sequence of `getBooking`, `updateBooking` and `deleteBooking`.

    Each handler returns what it passes to `next(err)`, `None` when it
    answered the request itself. */
module BookingController {
  import opened Common
  import opened UserModel
  import opened BookingModel
  import PropertyModel
  import opened Ownership
  import opened Http
  import opened Store

  /** `Math.ceil((checkOut - checkIn) / (1000 * 60 * 60 * 24))` on integer
      millisecond timestamps: the least whole number of days covering the
      difference. No order between the dates is demanded. */
  function DaysOfStay(checkIn: int, checkOut: int): (days: int)
    ensures (days - 1) * MillisPerDay < checkOut - checkIn <= days * MillisPerDay
  {
    var d := checkOut - checkIn;
    if d % MillisPerDay == 0 then d / MillisPerDay else d / MillisPerDay + 1
  }

  /** A stay of exactly `k` days costs `k` nights, for any whole `k`. */
  lemma WholeDays(checkIn: int, k: int)
    ensures DaysOfStay(checkIn, checkIn + k * MillisPerDay) == k
  {
    var days := DaysOfStay(checkIn, checkIn + k * MillisPerDay);
    assert (days - 1) * MillisPerDay < k * MillisPerDay <= days * MillisPerDay;
  }

  /** Any part of a day counts as a whole one. */
  lemma PartialDayRoundsUp(checkIn: int, k: int, rest: int)
    requires 0 < rest < MillisPerDay
    ensures DaysOfStay(checkIn, checkIn + k * MillisPerDay + rest) == k + 1
  {
    var days := DaysOfStay(checkIn, checkIn + k * MillisPerDay + rest);
    assert (days - 1) * MillisPerDay < k * MillisPerDay + rest <= days * MillisPerDay;
  }

  /** The body after the stay has been priced: `daysOfStay` and
      `amountPaid` are computed from the dates and the nightly price. A
      missing date makes both NaN, modelled as absent; Mongoose refuses
      either way. */
  function PricedBody(body: BookingDraft, pricePerNight: int): BookingDraft
  {
    var days :=
      if body.checkInDate.Some? && body.checkOutDate.Some?
      then Some(DaysOfStay(body.checkInDate.value, body.checkOutDate.value))
      else None;
    body.(daysOfStay := days,
          amountPaid := if days.Some? then Some(days.value * pricePerNight) else None)
  }

  /** What `createBooking` stores, or why it stops. */
  function PlanBooking(body: BookingDraft, user: User, properties: seq<PropertyModel.Property>, freshId: string, now: int): Result<Booking>
    requires freshId != ""
  {
    var stamped := body.(userId := Some(user.userId));
    match PropertyModel.LookupProperty(properties, stamped.propertyId)
    case None => Err(ErrorResponse(404, "No property with the id of " + Show(stamped.propertyId)))
    case Some(i) =>
      var priced := PricedBody(stamped, properties[i].pricePerNight);
      match Create(priced, freshId, now)
      case None => Err(ValidationError)
      case Some(b) => Ok(b)
  }

  /** The owner is always the authenticated user: a `userId` in the body is
      overwritten and has no effect. */
  lemma PlanStampsOwner(body: BookingDraft, user: User, properties: seq<PropertyModel.Property>, freshId: string, now: int, forged: Option<string>)
    requires freshId != ""
    ensures PlanBooking(body, user, properties, freshId, now) == PlanBooking(body.(userId := forged), user, properties, freshId, now)
    ensures PlanBooking(body, user, properties, freshId, now).Ok? ==>
            PlanBooking(body, user, properties, freshId, now).value.userId == user.userId
  {
    assert body.(userId := Some(user.userId)) == body.(userId := forged).(userId := Some(user.userId));
  }

  /** Without a property of the requested id the answer is 404 and nothing
      is created. */
  lemma PlanNeedsProperty(body: BookingDraft, user: User, properties: seq<PropertyModel.Property>, freshId: string, now: int)
    requires freshId != ""
    requires forall j :: 0 <= j < |properties| ==> Some(properties[j].propertyId) != body.propertyId
    ensures PlanBooking(body, user, properties, freshId, now) ==
            Err(ErrorResponse(404, "No property with the id of " + Show(body.propertyId)))
  {
  }

  /** A created booking's stay is the rounded-up day count of its dates and
      its amount is that count times the nightly price of the first property
      with the requested id; equal dates cost nothing. */
  lemma PlanPricing(body: BookingDraft, user: User, properties: seq<PropertyModel.Property>, freshId: string, now: int, pid: string, i: nat)
    requires freshId != ""
    requires body.propertyId == Some(pid) && PropertyModel.FindProperty(properties, pid) == Some(i)
    requires PlanBooking(body, user, properties, freshId, now).Ok?
    ensures var b := PlanBooking(body, user, properties, freshId, now).value;
      && b.propertyId == pid
      && b.daysOfStay == DaysOfStay(b.checkInDate, b.checkOutDate)
      && b.amountPaid == b.daysOfStay * properties[i].pricePerNight
      && (b.checkInDate == b.checkOutDate ==> b.daysOfStay == 0 && b.amountPaid == 0)
  {
    var b := PlanBooking(body, user, properties, freshId, now).value;
    var priced := PricedBody(body.(userId := Some(user.userId)), properties[i].pricePerNight);
    assert Create(priced, freshId, now) == Some(b);
    assert AsDraft(b) == WithDefaults(priced, freshId, now);
  }

  /** Once the property exists, creation succeeds exactly when the client
      supplied the fields the handler does not compute: the computed owner,
      stay and amount always satisfy the schema, given both dates. */
  lemma PlanSucceedsIff(body: BookingDraft, user: User, properties: seq<PropertyModel.Property>, freshId: string, now: int, i: nat)
    requires freshId != ""
    requires PropertyModel.LookupProperty(properties, body.propertyId) == Some(i)
    ensures PlanBooking(body, user, properties, freshId, now).Ok? <==>
      && (body.bookingId.None? || Truthy(body.bookingId))
      && Truthy(body.propertyId) && user.userId != ""
      && body.checkInDate.Some? && body.checkOutDate.Some?
      && body.paymentInfo.Some? && PaymentComplete(body.paymentInfo.value) && body.paidAt.Some?
  {
  }

  /** `createBooking`. */
  method CreateBooking(db: Db, req: Request<BookingDraft>, res: Response, freshId: string, now: int)
    returns (err: Option<Failure>)
    requires req.user.Some? && freshId != ""
    modifies db`bookings, req`body, res`statusCode, res`body
    ensures var stamped := old(req.body).(userId := Some(req.user.value.userId));
      match PropertyModel.LookupProperty(db.properties, stamped.propertyId)
      case None => req.body == stamped
      case Some(i) => req.body == PricedBody(stamped, db.properties[i].pricePerNight)
    ensures var plan := PlanBooking(old(req.body), req.user.value, db.properties, freshId, now);
      && (plan.Ok? ==> err.None? && db.bookings == old(db.bookings) + [plan.value]
                       && res.statusCode == 201 && res.body == Some(SuccessBody(BookingData(plan.value))))
      && (plan.Err? ==> err == Some(plan.failure) && db.bookings == old(db.bookings)
                        && res.statusCode == old(res.statusCode) && res.body == old(res.body))
  {
    req.body := req.body.(userId := Some(req.user.value.userId));

    var found := PropertyModel.LookupProperty(db.properties, req.body.propertyId);
    if found.None? {
      return Some(ErrorResponse(404, "No property with the id of " + Show(req.body.propertyId)));
    }
    var property := db.properties[found.value];

    var days: Option<int> := None;
    if req.body.checkInDate.Some? && req.body.checkOutDate.Some? {
      days := Some(DaysOfStay(req.body.checkInDate.value, req.body.checkOutDate.value));
    }
    req.body := req.body.(daysOfStay := days);
    req.body := req.body.(amountPaid := if days.Some? then Some(days.value * property.pricePerNight) else None);

    var booking := Create(req.body, freshId, now);
    if booking.None? {
      return Some(ValidationError);
    }
    db.bookings := db.bookings + [booking.value];
    res.Status(201);
    res.Json(SuccessBody(BookingData(booking.value)));
    return None;
  }

  /** `Booking.find({ userId })`: the bookings of one user, in stored order. */
  function OwnedBy(bookings: seq<Booking>, userId: string): (r: seq<Booking>)
    ensures |r| <= |bookings|
  {
    if bookings == [] then []
    else (if bookings[0].userId == userId then [bookings[0]] else []) + OwnedBy(bookings[1..], userId)
  }

  /** The result holds every booking of the user as often as it is stored,
      and nothing else. */
  lemma {:induction false} OwnedByIsFilter(bookings: seq<Booking>, userId: string)
    ensures forall b :: b in OwnedBy(bookings, userId) <==> b in bookings && b.userId == userId
    ensures forall b :: multiset(OwnedBy(bookings, userId))[b] ==
                        if b.userId == userId then multiset(bookings)[b] else 0
  {
    if bookings != [] {
      OwnedByIsFilter(bookings[1..], userId);
      assert bookings == [bookings[0]] + bookings[1..];
    }
  }

  /** The result keeps the stored order: the bookings of one part of the
      collection come before those of the part after it. */
  lemma {:induction false} OwnedByAppend(a: seq<Booking>, b: seq<Booking>, userId: string)
    ensures OwnedBy(a + b, userId) == OwnedBy(a, userId) + OwnedBy(b, userId)
    decreases |a|
  {
    if a != [] {
      assert (a + b)[0] == a[0] && (a + b)[1..] == a[1..] + b;
      OwnedByAppend(a[1..], b, userId);
    } else {
      assert a + b == b;
    }
  }

  /** The first step of `getMyBookings`: the signed-in user's bookings. It
      reads `req.user.userId`, so on a chain without `protect`, where
      `req.user` is unset, it throws a TypeError for every caller. */
  function MyBookings(bookings: seq<Booking>, user: Option<User>): (r: Result<seq<Booking>>)
    ensures r.Err? <==> user.None?
    ensures r.Err? ==> r.failure == Thrown("Cannot read properties of undefined (reading 'userId')")
    ensures r.Ok? ==> forall b :: b in r.value <==> b in bookings && b.userId == user.value.userId
    ensures r.Ok? ==> forall b :: multiset(r.value)[b] == if b.userId == user.value.userId then multiset(bookings)[b] else 0
  {
    if user.None? then Err(Thrown("Cannot read properties of undefined (reading 'userId')"))
    else OwnedByIsFilter(bookings, user.value.userId); Ok(OwnedBy(bookings, user.value.userId))
  }

  /** The booking a request's id parameter names, if any. */
  function LookupBooking(bookings: seq<Booking>, id: Option<string>): Option<nat>
  {
    if id.None? then None else FindBooking(bookings, id.value)
  }

  function OwnerOf(bookings: seq<Booking>, found: Option<nat>): Option<string>
  {
    if found.Some? && found.value < |bookings| then Some(bookings[found.value].userId) else None
  }

  /** `getBooking`: not found, then owner or exactly 'admin', then the
      booking is sent. */
  method GetBooking(db: Db, req: Request<BookingDraft>, res: Response) returns (err: Option<Failure>)
    requires req.user.Some?
    modifies res`statusCode, res`body
    ensures var found := LookupBooking(db.bookings, req.routeId);
      var user := req.user.value;
      match Check(OwnerOf(db.bookings, found), user.userId, user.role, "admin")
      case NotFound =>
        && err == Some(ErrorResponse(404, "No booking found with the id of " + Show(req.routeId)))
        && res.statusCode == old(res.statusCode) && res.body == old(res.body)
      case NotAuthorized =>
        && err == Some(ErrorResponse(401, "User " + user.id + " is not authorized to access this booking"))
        && res.statusCode == old(res.statusCode) && res.body == old(res.body)
      case Permitted =>
        && err.None? && res.statusCode == 200
        && res.body == Some(SuccessBody(BookingData(db.bookings[found.value])))
  {
    var found := LookupBooking(db.bookings, req.routeId);
    if found.None? {
      return Some(ErrorResponse(404, "No booking found with the id of " + Show(req.routeId)));
    }
    var booking := db.bookings[found.value];
    var user := req.user.value;
    if booking.userId != user.userId && !IsRole(user.role, "admin") {
      return Some(ErrorResponse(401, "User " + user.id + " is not authorized to access this booking"));
    }
    res.Status(200);
    res.Json(SuccessBody(BookingData(booking)));
    return None;
  }

  /** `updateBooking`: not found, then owner or exactly 'ADMIN', then the
      update, whose validators may still refuse it; the updated booking is
      sent. Nothing is written after a failed check. */
  method UpdateBooking(db: Db, req: Request<BookingDraft>, res: Response) returns (err: Option<Failure>)
    requires req.user.Some?
    modifies db`bookings, res`statusCode, res`body
    ensures var found := LookupBooking(old(db.bookings), req.routeId);
      var user := req.user.value;
      match Check(OwnerOf(old(db.bookings), found), user.userId, user.role, "ADMIN")
      case NotFound =>
        && err == Some(ErrorResponse(404, "No booking with the id of " + Show(req.routeId)))
        && db.bookings == old(db.bookings)
        && res.statusCode == old(res.statusCode) && res.body == old(res.body)
      case NotAuthorized =>
        && err == Some(ErrorResponse(401, "User " + user.userId + " is not authorized to update this booking"))
        && db.bookings == old(db.bookings)
        && res.statusCode == old(res.statusCode) && res.body == old(res.body)
      case Permitted =>
        if UpdateAcceptable(req.body) then
          var updated := Merge(old(db.bookings)[found.value], req.body);
          && err.None? && db.bookings == old(db.bookings)[found.value := updated]
          && res.statusCode == 200 && res.body == Some(SuccessBody(BookingData(updated)))
        else
          && err == Some(ValidationError) && db.bookings == old(db.bookings)
          && res.statusCode == old(res.statusCode) && res.body == old(res.body)
  {
    var found := LookupBooking(db.bookings, req.routeId);
    if found.None? {
      return Some(ErrorResponse(404, "No booking with the id of " + Show(req.routeId)));
    }
    var booking := db.bookings[found.value];
    var user := req.user.value;
    if booking.userId != user.userId && !IsRole(user.role, "ADMIN") {
      return Some(ErrorResponse(401, "User " + user.userId + " is not authorized to update this booking"));
    }
    if !UpdateAcceptable(req.body) {
      return Some(ValidationError);
    }
    var updated := Merge(booking, req.body);
    db.bookings := db.bookings[found.value := updated];
    res.Status(200);
    res.Json(SuccessBody(BookingData(updated)));
    return None;
  }

  /** `deleteBooking`: not found, then owner or exactly 'admin', and only
      then the booking is removed; the answer carries empty data. The 404
      message renders `req.params.id`, which the `/:bookingId` route never
      sets, so it always ends in "undefined". */
  method DeleteBooking(db: Db, req: Request<BookingDraft>, res: Response) returns (err: Option<Failure>)
    requires req.user.Some?
    modifies db`bookings, res`statusCode, res`body
    ensures var found := LookupBooking(old(db.bookings), req.routeId);
      var user := req.user.value;
      match Check(OwnerOf(old(db.bookings), found), user.userId, user.role, "admin")
      case NotFound =>
        && err == Some(ErrorResponse(404, "No booking with the id of " + Show(None)))
        && db.bookings == old(db.bookings)
        && res.statusCode == old(res.statusCode) && res.body == old(res.body)
      case NotAuthorized =>
        && err == Some(ErrorResponse(401, "User " + user.id + " is not authorized to delete this booking"))
        && db.bookings == old(db.bookings)
        && res.statusCode == old(res.statusCode) && res.body == old(res.body)
      case Permitted =>
        && err.None? && db.bookings == RemoveAt(old(db.bookings), found.value)
        && res.statusCode == 200 && res.body == Some(SuccessBody(EmptyData))
  {
    var found := LookupBooking(db.bookings, req.routeId);
    if found.None? {
      return Some(ErrorResponse(404, "No booking with the id of " + Show(None)));
    }
    var booking := db.bookings[found.value];
    var user := req.user.value;
    if booking.userId != user.userId && !IsRole(user.role, "admin") {
      return Some(ErrorResponse(401, "User " + user.id + " is not authorized to delete this booking"));
    }
    db.bookings := RemoveAt(db.bookings, found.value);
    res.Status(200);
    res.Json(SuccessBody(EmptyData));
    return None;
  }
}
