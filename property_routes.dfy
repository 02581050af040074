/** routes/propertyRoutes.js: the property router's stack, with the booking
    and review routers mounted under a property before the property routes
    themselves. Its role lists are upper case, and the trailing comma in
    `authorize('USER', 'ADMIN', )` passes no third role. */
module PropertyRoutes {
  import opened Common
  import opened UserModel
  import opened AuthMiddleware
  import opened Routing
  import BookingRoutes
  import ReviewRoutes

  /** The roles that may create or change a property. */
  const WriteRoles: seq<string> := ["USER", "ADMIN"]

  /** The stack in registration order. */
  const Table: seq<Layer> := [
    Mount([Param("propertyId"), Lit("bookings")], BookingRoutes.Table),
    Mount([Param("propertyId"), Lit("reviews")], ReviewRoutes.Table),
    Endpoint(GET, [], [Middleware("advancedResults"), Handler("getProperties")]),
    Endpoint(POST, [], [Protect, Authorize(WriteRoles), Handler("createProperty")]),
    Endpoint(GET, [Param("propertyId")], [Handler("getProperty")]),
    Endpoint(PUT, [Param("propertyId")], [Protect, Authorize(WriteRoles), Handler("updateProperty")]),
    Endpoint(DELETE, [Param("propertyId")], [Protect, Authorize(WriteRoles), Handler("deleteProperty")])
  ]

  /** The module's top level: the nested routers first, then the routes. */
  method Build() returns (router: Router)
    ensures fresh(router) && router.stack == Table
  {
    var bookingRouter := BookingRoutes.Build();
    var reviewRouter := ReviewRoutes.Build();
    router := new Router();
    router.Use([Param("propertyId"), Lit("bookings")], bookingRouter);
    router.Use([Param("propertyId"), Lit("reviews")], reviewRouter);
    router.Handle(GET, [], [Middleware("advancedResults"), Handler("getProperties")]);
    router.Handle(POST, [], [Protect, Authorize(WriteRoles), Handler("createProperty")]);
    router.Handle(GET, [Param("propertyId")], [Handler("getProperty")]);
    router.Handle(PUT, [Param("propertyId")], [Protect, Authorize(WriteRoles), Handler("updateProperty")]);
    router.Handle(DELETE, [Param("propertyId")], [Protect, Authorize(WriteRoles), Handler("deleteProperty")]);
  }

  /** A short path never reaches the mounted routers. */
  lemma MountsNeedTwoSegments(verb: Verb, path: seq<string>)
    requires |path| < 2
    ensures DispatchLayer(Table[0], verb, path).None? && DispatchLayer(Table[1], verb, path).None?
  {
  }

  /** `POST /`: 401 without a session, then only the exact roles 'USER' and
      'ADMIN'; the lower-case 'user' and 'admin' are refused. */
  lemma CreateRoute(gate: Gate)
    ensures Serve(Table, POST, [], gate) ==
      if !gate.Admit? then Halted(401)
      else if HasAccess(WriteRoles, gate.user.role) then Reached("createProperty")
      else Halted(403)
    ensures gate.Admit? && gate.user.role in {One("user"), One("admin")} ==>
      Serve(Table, POST, [], gate) == Halted(403)
  {
    MountsNeedTwoSegments(POST, []);
    DispatchAt(Table, POST, [], 3);
    GuardedChain(WriteRoles, "createProperty", gate);
  }

  /** `PUT /:propertyId`: the same guard as `POST /`. */
  lemma UpdateRoute(id: string, gate: Gate)
    requires id != ""
    ensures Serve(Table, PUT, [id], gate) ==
      if !gate.Admit? then Halted(401)
      else if HasAccess(WriteRoles, gate.user.role) then Reached("updateProperty")
      else Halted(403)
    ensures gate.Admit? && gate.user.role in {One("user"), One("admin")} ==>
      Serve(Table, PUT, [id], gate) == Halted(403)
  {
    MountsNeedTwoSegments(PUT, [id]);
    assert forall j :: 2 <= j < 5 ==> Table[j].verb != PUT;
    DispatchAt(Table, PUT, [id], 5);
    GuardedChain(WriteRoles, "updateProperty", gate);
  }

  /** `DELETE /:propertyId`: the same guard as `POST /`. */
  lemma DeleteRoute(id: string, gate: Gate)
    requires id != ""
    ensures Serve(Table, DELETE, [id], gate) ==
      if !gate.Admit? then Halted(401)
      else if HasAccess(WriteRoles, gate.user.role) then Reached("deleteProperty")
      else Halted(403)
    ensures gate.Admit? && gate.user.role in {One("user"), One("admin")} ==>
      Serve(Table, DELETE, [id], gate) == Halted(403)
  {
    MountsNeedTwoSegments(DELETE, [id]);
    assert forall j :: 2 <= j < 6 ==> Table[j].verb != DELETE;
    DispatchAt(Table, DELETE, [id], 6);
    GuardedChain(WriteRoles, "deleteProperty", gate);
  }

  /** `GET /` and `GET /:propertyId` are served to anyone. */
  lemma ReadsArePublic(id: string, gate: Gate)
    requires id != ""
    ensures Serve(Table, GET, [], gate) == Reached("getProperties")
    ensures Serve(Table, GET, [id], gate) == Reached("getProperty")
  {
    MountsNeedTwoSegments(GET, []);
    DispatchAt(Table, GET, [], 2);
    PublicChain([Middleware("advancedResults")], "getProperties", gate, None);
    MountsNeedTwoSegments(GET, [id]);
    assert DispatchLayer(Table[2], GET, [id]).None? && DispatchLayer(Table[3], GET, [id]).None?;
    DispatchAt(Table, GET, [id], 4);
    PublicChain([], "getProperty", gate, None);
  }

  /** None of the property's own routes takes a path of two or more
      segments. */
  lemma RoutesTakeAtMostOneSegment(verb: Verb, path: seq<string>)
    requires |path| >= 2
    ensures forall j :: 2 <= j < |Table| ==> DispatchLayer(Table[j], verb, path).None?
  {
  }

  /** Everything under `/:propertyId/bookings` is exactly what the booking
      router does with the rest of the path. */
  lemma NestedBookings(propertyId: string, verb: Verb, rest: seq<string>)
    requires propertyId != ""
    ensures Dispatch(Table, verb, [propertyId, "bookings"] + rest) == Dispatch(BookingRoutes.Table, verb, rest)
  {
    var path := [propertyId, "bookings"] + rest;
    assert path[2..] == rest;
    assert DispatchLayer(Table[0], verb, path) == Dispatch(BookingRoutes.Table, verb, rest);
    if Dispatch(BookingRoutes.Table, verb, rest).Some? {
      DispatchAt(Table, verb, path, 0);
    } else {
      assert path[1] != "reviews";
      RoutesTakeAtMostOneSegment(verb, path);
      DispatchNone(Table, verb, path);
    }
  }

  /** Everything under `/:propertyId/reviews` is exactly what the review
      router does with the rest of the path. */
  lemma NestedReviews(propertyId: string, verb: Verb, rest: seq<string>)
    requires propertyId != ""
    ensures Dispatch(Table, verb, [propertyId, "reviews"] + rest) == Dispatch(ReviewRoutes.Table, verb, rest)
  {
    var path := [propertyId, "reviews"] + rest;
    assert path[2..] == rest;
    assert path[1] != "bookings";
    assert DispatchLayer(Table[1], verb, path) == Dispatch(ReviewRoutes.Table, verb, rest);
    if Dispatch(ReviewRoutes.Table, verb, rest).Some? {
      DispatchAt(Table, verb, path, 1);
    } else {
      RoutesTakeAtMostOneSegment(verb, path);
      DispatchNone(Table, verb, path);
    }
  }

  /** A 'host' may book a stay through `POST /:propertyId/bookings`, but
      may not write a review through `POST /:propertyId/reviews`. */
  lemma HostThroughProperty(propertyId: string, host: User)
    requires propertyId != "" && host.role == One("host")
    ensures Serve(Table, POST, [propertyId, "bookings"], Admit(host)) == Reached("createBooking")
    ensures Serve(Table, POST, [propertyId, "reviews"], Admit(host)) == Halted(403)
  {
    NestedBookings(propertyId, POST, []);
    NestedReviews(propertyId, POST, []);
    assert [propertyId, "bookings"] + [] == [propertyId, "bookings"];
    assert [propertyId, "reviews"] + [] == [propertyId, "reviews"];
    BookingRoutes.CreateRoute(Admit(host));
    ReviewRoutes.AddRoute(Admit(host));
  }
}
