/** The booking schema (models/Booking.js) as a validity predicate, the
    defaults Mongoose fills in, and the field-wise merge an update performs.
    Dates are integer milliseconds since the epoch; numbers are integers. */
module BookingModel {
  import opened Common

  /** The nested `paymentInfo` object of a stored booking. */
  datatype PaymentInfo = PaymentInfo(id: string, status: string)

  /** A stored booking. */
  datatype Booking = Booking(
    bookingId: string, propertyId: string, userId: string,
    checkInDate: int, checkOutDate: int, amountPaid: int, daysOfStay: int,
    paymentInfo: PaymentInfo, paidAt: int, createdAt: int)

  /** A `paymentInfo` object as a client sends it: either path may be absent. */
  datatype PaymentDraft = PaymentDraft(id: Option<string>, status: Option<string>)

  /** A request body or an update: any of the fields, each possibly absent.
      `paymentInfo` is one value, sent as a whole object or not at all. */
  datatype BookingDraft = BookingDraft(
    bookingId: Option<string>, propertyId: Option<string>, userId: Option<string>,
    checkInDate: Option<int>, checkOutDate: Option<int>, amountPaid: Option<int>, daysOfStay: Option<int>,
    paymentInfo: Option<PaymentDraft>, paidAt: Option<int>, createdAt: Option<int>)

  /** `bookingId` defaults to a freshly generated id and `createdAt` to the
      creation time; a default applies only to an absent value. */
  function WithDefaults(d: BookingDraft, freshId: string, now: int): BookingDraft
  {
    d.(bookingId := if d.bookingId.None? then Some(freshId) else d.bookingId,
       createdAt := if d.createdAt.None? then Some(now) else d.createdAt)
  }

  /** Both `required` paths of a `paymentInfo` object are set and non-empty. */
  predicate PaymentComplete(q: PaymentDraft)
  {
    Truthy(q.id) && Truthy(q.status)
  }

  /** The schema's `required` rules. Nothing relates the two dates, and
      neither `amountPaid` nor `daysOfStay` has a sign constraint. */
  predicate Complete(d: BookingDraft)
  {
    && Truthy(d.bookingId) && Truthy(d.propertyId) && Truthy(d.userId)
    && d.checkInDate.Some? && d.checkOutDate.Some?
    && d.amountPaid.Some? && d.daysOfStay.Some?
    && d.paymentInfo.Some? && PaymentComplete(d.paymentInfo.value)
    && d.paidAt.Some? && d.createdAt.Some?
  }

  /** Every field of a stored booking, as a draft. */
  function AsDraft(b: Booking): BookingDraft
  {
    BookingDraft(Some(b.bookingId), Some(b.propertyId), Some(b.userId),
      Some(b.checkInDate), Some(b.checkOutDate), Some(b.amountPaid), Some(b.daysOfStay),
      Some(PaymentDraft(Some(b.paymentInfo.id), Some(b.paymentInfo.status))), Some(b.paidAt), Some(b.createdAt))
  }

  /** A stored booking satisfies the schema. */
  predicate Valid(b: Booking)
  {
    Complete(AsDraft(b))
  }

  /** `Booking.create(d)`: fill the defaults, validate, store exactly the
      resulting values; `None` is the ValidationError. `freshId` is what the
      id generator returned, never empty. */
  function Create(d: BookingDraft, freshId: string, now: int): (r: Option<Booking>)
    requires freshId != ""
    ensures r.Some? <==> Complete(WithDefaults(d, freshId, now))
    ensures r.Some? ==> Valid(r.value) && AsDraft(r.value) == WithDefaults(d, freshId, now)
  {
    var e := WithDefaults(d, freshId, now);
    if !Complete(e) then None
    else Some(Booking(e.bookingId.value, e.propertyId.value, e.userId.value,
      e.checkInDate.value, e.checkOutDate.value, e.amountPaid.value, e.daysOfStay.value,
      PaymentInfo(e.paymentInfo.value.id.value, e.paymentInfo.value.status.value),
      e.paidAt.value, e.createdAt.value))
  }

  /** Re-creating a valid booking from all its fields gives it back: no
      default overrides a given value. */
  lemma CreateAsDraft(b: Booking, freshId: string, now: int)
    requires freshId != "" && Valid(b)
    ensures Create(AsDraft(b), freshId, now) == Some(b)
  {
  }

  /** Any dates and any amounts, negative or reversed, are accepted. */
  lemma NoDateOrSignConstraint(b: Booking, checkIn: int, checkOut: int, amount: int, days: int)
    requires Valid(b)
    ensures Valid(b.(checkInDate := checkIn, checkOutDate := checkOut, amountPaid := amount, daysOfStay := days))
  {
  }

  /** The fields an update may set without its validators refusing it:
      `runValidators` checks only the paths present in the update, and a
      required String refuses the empty string. A `paymentInfo` object in an
      update replaces the stored one whole, so both of its required paths
      are checked: one it leaves out counts as unset. */
  predicate UpdateAcceptable(p: BookingDraft)
  {
    && (p.bookingId.Some? ==> p.bookingId.value != "")
    && (p.propertyId.Some? ==> p.propertyId.value != "")
    && (p.userId.Some? ==> p.userId.value != "")
    && (p.paymentInfo.Some? ==> PaymentComplete(p.paymentInfo.value))
  }

  /** `findOneAndUpdate(filter, p, { new: true })` once the validators have
      accepted `p`: every field present in `p` replaces the stored one,
      including `bookingId`, the owner and the whole `paymentInfo`. */
  function Merge(b: Booking, p: BookingDraft): (r: Booking)
    requires UpdateAcceptable(p)
  {
    Booking(Pick(p.bookingId, b.bookingId), Pick(p.propertyId, b.propertyId), Pick(p.userId, b.userId),
      Pick(p.checkInDate, b.checkInDate), Pick(p.checkOutDate, b.checkOutDate),
      Pick(p.amountPaid, b.amountPaid), Pick(p.daysOfStay, b.daysOfStay),
      if p.paymentInfo.Some? then PaymentInfo(p.paymentInfo.value.id.value, p.paymentInfo.value.status.value)
      else b.paymentInfo,
      Pick(p.paidAt, b.paidAt), Pick(p.createdAt, b.createdAt))
  }

  /** An update its validators accept keeps a valid booking valid; fields it
      does not mention keep their values, and a `paymentInfo` it carries
      leaves nothing of the stored one. */
  lemma MergeKeepsValid(b: Booking, p: BookingDraft)
    requires Valid(b) && UpdateAcceptable(p)
    ensures Valid(Merge(b, p))
    ensures p.userId.None? ==> Merge(b, p).userId == b.userId
    ensures p.bookingId.None? ==> Merge(b, p).bookingId == b.bookingId
    ensures p.paymentInfo.None? ==> Merge(b, p).paymentInfo == b.paymentInfo
    ensures p.paymentInfo.Some? ==> AsDraft(Merge(b, p)).paymentInfo == p.paymentInfo
  {
  }

  /** An update carrying only part of `paymentInfo` is refused, whatever the
      stored booking holds: the sibling it leaves out is not kept. */
  lemma PartialPaymentInfoRefused(p: BookingDraft)
    requires p.paymentInfo.Some? && (p.paymentInfo.value.id.None? || p.paymentInfo.value.status.None?)
    ensures !UpdateAcceptable(p)
  {
  }

  /** `Booking.findOne({ bookingId: id })`: the position of the first booking
      with that id. */
  function FindBooking(bookings: seq<Booking>, id: string): (r: Option<nat>)
    ensures r.Some? ==> r.value < |bookings| && bookings[r.value].bookingId == id
    ensures r.Some? ==> forall j :: 0 <= j < r.value ==> bookings[j].bookingId != id
    ensures r.None? <==> forall j :: 0 <= j < |bookings| ==> bookings[j].bookingId != id
  {
    FirstWhere(bookings, (b: Booking) => b.bookingId == id)
  }
}
