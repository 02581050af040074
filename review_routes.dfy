/** routes/reviewRoutes.js: the review router's stack. The two inline
    handlers (reviews of a property, reviews of the signed-in user) are
    store reads and are named by their paths. */
module ReviewRoutes {
  import opened Common
  import opened UserModel
  import opened AuthMiddleware
  import opened Routing

  /** The roles that may write a review. */
  const WriteRoles: seq<string> := ["user", "admin"]

  /** The stack in registration order. */
  const Table: seq<Layer> := [
    Endpoint(GET, [], [Middleware("advancedResults"), Handler("getReviews")]),
    Endpoint(POST, [], [Protect, Authorize(WriteRoles), Handler("addReview")]),
    Endpoint(GET, [Param("reviewId")], [Handler("getReview")]),
    Endpoint(PUT, [Param("reviewId")], [Protect, Authorize(WriteRoles), Handler("updateReview")]),
    Endpoint(DELETE, [Param("reviewId")], [Protect, Authorize(WriteRoles), Handler("deleteReview")]),
    Endpoint(GET, [Lit("property"), Param("propertyId")], [Handler("reviewsOfProperty")]),
    Endpoint(GET, [Lit("my-reviews")], [Protect, Handler("reviewsOfUser")])
  ]

  /** The module's top level, registering the routes in order. */
  method Build() returns (router: Router)
    ensures fresh(router) && router.stack == Table
  {
    router := new Router();
    router.Handle(GET, [], [Middleware("advancedResults"), Handler("getReviews")]);
    router.Handle(POST, [], [Protect, Authorize(WriteRoles), Handler("addReview")]);
    router.Handle(GET, [Param("reviewId")], [Handler("getReview")]);
    router.Handle(PUT, [Param("reviewId")], [Protect, Authorize(WriteRoles), Handler("updateReview")]);
    router.Handle(DELETE, [Param("reviewId")], [Protect, Authorize(WriteRoles), Handler("deleteReview")]);
    router.Handle(GET, [Lit("property"), Param("propertyId")], [Handler("reviewsOfProperty")]);
    router.Handle(GET, [Lit("my-reviews")], [Protect, Handler("reviewsOfUser")]);
  }

  /** No request to this router makes `authorize` throw. */
  lemma TableNeverCrashes(verb: Verb, path: seq<string>, gate: Gate)
    ensures Serve(Table, verb, path, gate) != Crashed
  {
    ProtectFirstNeverCrashes(Table, verb, path, gate);
  }

  /** `POST /`: 401 without a session, then 'user' or 'admin' only; a
      'host' is refused. */
  lemma AddRoute(gate: Gate)
    ensures Serve(Table, POST, [], gate) ==
      if !gate.Admit? then Halted(401)
      else if HasAccess(WriteRoles, gate.user.role) then Reached("addReview")
      else Halted(403)
    ensures gate.Admit? && gate.user.role == One("host") ==> Serve(Table, POST, [], gate) == Halted(403)
  {
    DispatchAt(Table, POST, [], 1);
    GuardedChain(WriteRoles, "addReview", gate);
  }

  /** `PUT /:reviewId`: the same chain and roles as `POST /`. */
  lemma UpdateRoute(id: string, gate: Gate)
    requires id != ""
    ensures Serve(Table, PUT, [id], gate) ==
      if !gate.Admit? then Halted(401)
      else if HasAccess(WriteRoles, gate.user.role) then Reached("updateReview")
      else Halted(403)
    ensures gate.Admit? && gate.user.role == One("host") ==> Serve(Table, PUT, [id], gate) == Halted(403)
  {
    assert forall j :: 0 <= j < 3 ==> Table[j].verb != PUT;
    DispatchAt(Table, PUT, [id], 3);
    GuardedChain(WriteRoles, "updateReview", gate);
  }

  /** `DELETE /:reviewId`: the same chain and roles as `POST /`. */
  lemma DeleteRoute(id: string, gate: Gate)
    requires id != ""
    ensures Serve(Table, DELETE, [id], gate) ==
      if !gate.Admit? then Halted(401)
      else if HasAccess(WriteRoles, gate.user.role) then Reached("deleteReview")
      else Halted(403)
    ensures gate.Admit? && gate.user.role == One("host") ==> Serve(Table, DELETE, [id], gate) == Halted(403)
  {
    assert forall j :: 0 <= j < 4 ==> Table[j].verb != DELETE;
    DispatchAt(Table, DELETE, [id], 4);
    GuardedChain(WriteRoles, "deleteReview", gate);
  }

  /** `GET /`, `GET /:reviewId` and `GET /property/:propertyId` are served
      to anyone. */
  lemma ReadsArePublic(id: string, propertyId: string, gate: Gate)
    requires id != "" && propertyId != ""
    ensures Serve(Table, GET, [], gate) == Reached("getReviews")
    ensures Serve(Table, GET, [id], gate) == Reached("getReview")
    ensures Serve(Table, GET, ["property", propertyId], gate) == Reached("reviewsOfProperty")
  {
    DispatchAt(Table, GET, [], 0);
    PublicChain([Middleware("advancedResults")], "getReviews", gate, None);
    assert DispatchLayer(Table[0], GET, [id]).None? && DispatchLayer(Table[1], GET, [id]).None?;
    DispatchAt(Table, GET, [id], 2);
    PublicChain([], "getReview", gate, None);
    PropertyReviewsArePublic(propertyId, gate);
  }

  lemma PropertyReviewsArePublic(propertyId: string, gate: Gate)
    requires propertyId != ""
    ensures Serve(Table, GET, ["property", propertyId], gate) == Reached("reviewsOfProperty")
  {
    PropertyReviewsLayer(propertyId);
    DispatchAt(Table, GET, ["property", propertyId], 5);
    PublicChain([], "reviewsOfProperty", gate, None);
  }

  /** Of the layers, the sixth is the first to take `/property/:propertyId`. */
  lemma PropertyReviewsLayer(propertyId: string)
    requires propertyId != ""
    ensures forall j :: 0 <= j < 5 ==> DispatchLayer(Table[j], GET, ["property", propertyId]).None?
    ensures DispatchLayer(Table[5], GET, ["property", propertyId]) == Some([Handler("reviewsOfProperty")])
  {
    var path := ["property", propertyId];
    assert PathMatches(Table[5].pattern, path);
  }

  /** `GET /my-reviews` is taken by the earlier `/:reviewId` route: the
      protected handler registered for it is never reached, and the request
      reaches `getReview` without a session. */
  lemma MyReviewsShadowed()
    ensures Dispatch(Table, GET, ["my-reviews"]) == Some([Handler("getReview")])
    ensures forall gate :: Serve(Table, GET, ["my-reviews"], gate) == Reached("getReview")
  {
    forall gate {
      ReadsArePublic("my-reviews", "my-reviews", gate);
    }
    DispatchAt(Table, GET, ["my-reviews"], 2);
  }
}
