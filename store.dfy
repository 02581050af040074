/** The MongoDB collections the core reads and writes, each kept as a
    sequence of documents in natural order (the order `findOne` scans).
    No id field has a unique index, so two documents may share an id. */
module Store {
  import opened UserModel
  import opened BookingModel
  import opened PropertyModel

  class Db {
    var users: seq<User>
    var properties: seq<Property>
    var bookings: seq<Booking>

    constructor ()
      ensures users == [] && properties == [] && bookings == []
    {
      users := [];
      properties := [];
      bookings := [];
    }
  }
}
