/** routes/bookingRoutes.js: the booking router's stack and what it does
    with requests. The routes register `getMyBookings` (not `getBooking`)
    for `GET /:bookingId`. */
module BookingRoutes {
  import opened Common
  import opened UserModel
  import opened AuthMiddleware
  import opened Routing

  /** The roles that may create a booking, and those that may change one. */
  const CreateRoles: seq<string> := ["user", "admin", "host"]
  const WriteRoles: seq<string> := ["user", "admin"]

  /** The stack in registration order. */
  const Table: seq<Layer> := [
    Endpoint(GET, [], [Middleware("advancedResults"), Handler("getMyBookings")]),
    Endpoint(POST, [], [Protect, Authorize(CreateRoles), Handler("createBooking")]),
    Endpoint(GET, [Param("bookingId")], [Handler("getMyBookings")]),
    Endpoint(PUT, [Param("bookingId")], [Protect, Authorize(WriteRoles), Handler("updateBooking")]),
    Endpoint(DELETE, [Param("bookingId")], [Protect, Authorize(WriteRoles), Handler("deleteBooking")]),
    Endpoint(GET, [Lit("my-bookings")], [Protect, Handler("getMyBookings")])
  ]

  /** The module's top level, registering the routes in order. */
  method Build() returns (router: Router)
    ensures fresh(router) && router.stack == Table
  {
    router := new Router();
    router.Handle(GET, [], [Middleware("advancedResults"), Handler("getMyBookings")]);
    router.Handle(POST, [], [Protect, Authorize(CreateRoles), Handler("createBooking")]);
    router.Handle(GET, [Param("bookingId")], [Handler("getMyBookings")]);
    router.Handle(PUT, [Param("bookingId")], [Protect, Authorize(WriteRoles), Handler("updateBooking")]);
    router.Handle(DELETE, [Param("bookingId")], [Protect, Authorize(WriteRoles), Handler("deleteBooking")]);
    router.Handle(GET, [Lit("my-bookings")], [Protect, Handler("getMyBookings")]);
  }

  /** In every chain `protect` comes before `authorize`, so no request to
      this router makes `authorize` throw. */
  lemma TableNeverCrashes(verb: Verb, path: seq<string>, gate: Gate)
    ensures Serve(Table, verb, path, gate) != Crashed
  {
    ProtectFirstNeverCrashes(Table, verb, path, gate);
  }

  /** `POST /`: 401 without a valid session, then 403 unless the user has
      one of the roles 'user', 'admin' or 'host', then the handler. */
  lemma CreateRoute(gate: Gate)
    ensures Serve(Table, POST, [], gate) ==
      if !gate.Admit? then Halted(401)
      else if HasAccess(CreateRoles, gate.user.role) then Reached("createBooking")
      else Halted(403)
    ensures gate.Admit? && gate.user.role in {One("user"), One("admin"), One("host")} ==>
      Serve(Table, POST, [], gate) == Reached("createBooking")
  {
    DispatchAt(Table, POST, [], 1);
    GuardedChain(CreateRoles, "createBooking", gate);
  }

  /** `PUT /:bookingId` admits 'user' and 'admin' but not 'host'. */
  lemma UpdateRoute(id: string, u: User)
    requires id != ""
    ensures Serve(Table, PUT, [id], Admit(u)) ==
      if HasAccess(WriteRoles, u.role) then Reached("updateBooking") else Halted(403)
    ensures u.role == One("host") ==> Serve(Table, PUT, [id], Admit(u)) == Halted(403)
    ensures u.role in {One("user"), One("admin")} ==> Serve(Table, PUT, [id], Admit(u)) == Reached("updateBooking")
  {
    assert forall j :: 0 <= j < 3 ==> Table[j].verb != PUT;
    DispatchAt(Table, PUT, [id], 3);
    GuardedChain(WriteRoles, "updateBooking", Admit(u));
  }

  /** `DELETE /:bookingId` admits 'user' and 'admin' but not 'host'. */
  lemma DeleteRoute(id: string, u: User)
    requires id != ""
    ensures Serve(Table, DELETE, [id], Admit(u)) ==
      if HasAccess(WriteRoles, u.role) then Reached("deleteBooking") else Halted(403)
    ensures u.role == One("host") ==> Serve(Table, DELETE, [id], Admit(u)) == Halted(403)
    ensures u.role in {One("user"), One("admin")} ==> Serve(Table, DELETE, [id], Admit(u)) == Reached("deleteBooking")
  {
    assert forall j :: 0 <= j < 4 ==> Table[j].verb != DELETE;
    DispatchAt(Table, DELETE, [id], 4);
    GuardedChain(WriteRoles, "deleteBooking", Admit(u));
  }

  /** No chain names `getBooking`, so no request ever reaches it. */
  lemma GetBookingUnrouted(verb: Verb, path: seq<string>, gate: Gate)
    ensures Serve(Table, verb, path, gate) != Reached("getBooking")
  {
    ServeReachesTableHandler(Table, verb, path, gate);
  }

  /** `GET /` reaches its handler for anyone, signed in or not, with
      `req.user` unset. */
  lemma ListIsPublic(gate: Gate)
    ensures Serve(Table, GET, [], gate) == Reached("getMyBookings")
  {
    DispatchAt(Table, GET, [], 0);
    PublicChain([Middleware("advancedResults")], "getMyBookings", gate, None);
  }

  /** `GET /:bookingId` reaches `getMyBookings` for anyone, signed in or
      not, with `req.user` unset. */
  lemma ReadIsPublic(id: string, gate: Gate)
    requires id != ""
    ensures Serve(Table, GET, [id], gate) == Reached("getMyBookings")
  {
    assert DispatchLayer(Table[0], GET, [id]).None? && DispatchLayer(Table[1], GET, [id]).None?;
    DispatchAt(Table, GET, [id], 2);
    PublicChain([], "getMyBookings", gate, None);
  }

  /** `GET /my-bookings` is taken by the earlier `/:bookingId` route, so the
      protected chain registered for it never runs and the request reaches
      the handler without a session. */
  lemma MyBookingsShadowed()
    ensures Dispatch(Table, GET, ["my-bookings"]) == Some([Handler("getMyBookings")]) != Some(Table[5].chain)
    ensures Serve(Table, GET, ["my-bookings"], NoToken) == Reached("getMyBookings")
  {
    ReadIsPublic("my-bookings", NoToken);
    DispatchAt(Table, GET, ["my-bookings"], 2);
  }
}
