# Airbnb-style booking backend: access control, ownership and validation

This project models the decision logic of an Express/Mongoose backend for
short-term rentals. Users own **properties**, book **stays** and write
**reviews**. The parts modelled:

- **Request access control.** `protect` finds a token in the
  `Authorization` header or the `jwt` cookie and runs a fixed chain of
  checks: no token, token that does not verify, user gone, success.
  `authorize(...roles)` tests whether the required roles and the user's
  roles meet. The three route files register ordered middleware chains,
  and Express serves each request with the first layer that matches.
- **Ownership-guarded handlers.** The booking controller, the property
  controller and the property service load a record, answer 404 when it
  is missing, answer 401 unless the caller owns it or is the admin, and
  only then update or remove it.
- **Booking pricing.** `createBooking` stamps the owner, requires the
  property, counts the days of the stay (rounded up) and charges
  days × price per night.
- **Login and the token response.** The login guards run in a fixed
  order. Unknown users and wrong passwords fail alike. A login sets the
  `jwt` cookie and sends the token and the password-free user.
- **Schema validity** of bookings, properties and reviews: required
  fields, defaults, enums, the trimmed title of at most 100 UTF-16 code
  units (as JavaScript counts `length`),
  ratings 1 to 5, and one review per (property, user).

How the model is built:

- The database is a `Store.Db` object holding three sequences in natural
  order. A lookup returns the first matching record.
- Requests and responses are the `Http.Request` and `Http.Response`
  classes. Handlers update them in place.
- JWT signing and verification (RFC 7519) and bcrypt comparison are
  function parameters (oracles). So are the clock, `JWT_COOKIE_EXPIRES`
  and `NODE_ENV`.
- Timestamps are integer milliseconds and prices are integers. Ratings
  and coordinates are reals.

Behaviours of the code as written that are proved here:

- `updateBooking` accepts only the upper-case role `'ADMIN'` as admin.
  Every other handler accepts only the lower-case `'admin'`
  (`Ownership.AdminLiteralMatters`).
- The property routes require the roles `'USER'` or `'ADMIN'`, so a
  lower-case `'user'` or `'admin'` is refused with 403 on every property
  write route (`PropertyRoutes.CreateRoute`).
- `GET /my-bookings` and `GET /my-reviews` are registered after
  `/:bookingId` and `/:reviewId`. The public parameter route therefore
  takes them, and the request reaches its handler without `protect`
  (`BookingRoutes.MyBookingsShadowed`, `ReviewRoutes.MyReviewsShadowed`).
- The booking routes bind `GET /:bookingId` to `getMyBookings`. No chain
  names `getBooking`, so no request reaches it
  (`BookingRoutes.Build`, `BookingRoutes.GetBookingUnrouted`).
- `GET /`, `GET /:bookingId` and `GET /my-bookings` of the booking router
  reach `getMyBookings` with `req.user` unset. The handler reads
  `req.user.userId`, so it throws for every caller
  (`BookingRoutes.ListIsPublic`, `BookingRoutes.ReadIsPublic`,
  `BookingController.MyBookings`).
- `createProperty` writes the caller's id to `req.body.user`, a path the
  property schema does not declare, so strict mode drops it. The owner
  stored is whatever `userId` the client sent, and a body without one is
  refused (`PropertyController.CreateOwnerIsForgeable`).
- The unique review index names the paths `property` and `user`, which
  the review schema lacks. Every review gets the same missing key, so
  only the first review is ever saved
  (`ReviewModel.IndexAsWrittenRefusesNewPair`).
- A header that starts with "Bearer" decides the token even when it gives
  none. A bare "Bearer" gives no token. Two spaces after "Bearer" give the
  empty token (`AuthMiddleware.BearerHeaderDecides`,
  `AuthMiddleware.BareBearerGivesNothing`,
  `AuthMiddleware.DoubleSpaceGivesEmpty`).

## Model

| member | source | states |
|---|---|---|
| AuthMiddleware.Protect | middlewares/authMiddlewares.js:5-40 | `next` is called exactly when a token is present, verifies and names a stored user, and then `req.user` is that user; otherwise 401 with the message of the first failing check (no token, then an invalid token or a lookup that throws, then a user gone) and `req.user` untouched |
| AuthMiddleware.ExtractToken | middlewares/authMiddlewares.js:6-12 | the token `protect` uses; its properties are stated by `AuthMiddleware.BearerRoundTrip`, `BearerHeaderDecides`, `BareBearerGivesNothing`, `AnyBearerPrefix`, `DoubleSpaceGivesEmpty` and `CookieFallback` |
| AuthMiddleware.Authenticate | middlewares/authMiddlewares.js:14-39 | the outcome of `protect`'s checks in order; stated by `AuthMiddleware.AuthenticateOrder` and `AuthMiddleware.Protect` |
| AuthMiddleware.BearerRoundTrip | middlewares/authMiddlewares.js:8-9 | the header "Bearer <token>" yields exactly that token, whatever the cookie |
| AuthMiddleware.BearerHeaderDecides | middlewares/authMiddlewares.js:8-12 | when the header starts with "Bearer" the cookie is never consulted; the token is the space-free second piece, and there is none exactly when the header has no space |
| AuthMiddleware.BareBearerGivesNothing | middlewares/authMiddlewares.js:8-9 | a bare "Bearer" header gives no token, even with a `jwt` cookie present |
| AuthMiddleware.AnyBearerPrefix | middlewares/authMiddlewares.js:8-9 | any text may follow "Bearer" before the space; the piece after the space is still the token |
| AuthMiddleware.DoubleSpaceGivesEmpty | middlewares/authMiddlewares.js:8-9 | "Bearer" followed by two spaces gives the empty token |
| AuthMiddleware.CookieFallback | middlewares/authMiddlewares.js:10-12 | without a "Bearer" header the token is the `jwt` cookie when it is non-empty, and none otherwise |
| AuthMiddleware.AuthenticateOrder | middlewares/authMiddlewares.js:14-39 | admission iff a token is present, verifies and finds a user; no token gives the not-logged-in outcome whatever the oracles; "user gone" iff the lookup answers no user |
| AuthMiddleware.UserRoles | middlewares/authMiddlewares.js:46 | a single role taken as a one-element list; stated by `AuthMiddleware.HasAccessIsIntersection` |
| AuthMiddleware.Includes | middlewares/authMiddlewares.js:49 | `includes` on the user's roles; stated by `AuthMiddleware.IncludesIff` |
| AuthMiddleware.SomeIncluded | middlewares/authMiddlewares.js:49 | `some` over the required roles; stated by `AuthMiddleware.SomeIncludedIff` |
| AuthMiddleware.HasAccess | middlewares/authMiddlewares.js:46-49 | the access decision of `authorize`; stated by `AuthMiddleware.HasAccessIsIntersection` and `AuthMiddleware.AuthorizeEdgeCases` |
| AuthMiddleware.IncludesIff | middlewares/authMiddlewares.js:49 | `includes` holds iff some element equals the value exactly |
| AuthMiddleware.SomeIncludedIff | middlewares/authMiddlewares.js:49 | `some(... includes ...)` holds iff the two role lists share an element |
| AuthMiddleware.HasAccessIsIntersection | middlewares/authMiddlewares.js:46-49 | access iff some required role equals one of the user's roles, a single role counting as a one-element list |
| AuthMiddleware.AuthorizeEdgeCases | middlewares/authMiddlewares.js:46-49 | no required roles denies everyone; comparison is case-sensitive ('user' is not 'USER'); one required role admits exactly the users holding it |
| AuthMiddleware.DenyMessage | middlewares/authMiddlewares.js:54 | the 403 message with the user's roles rendered comma-separated; stated by `AuthMiddleware.Authorize` |
| AuthMiddleware.Authorize | middlewares/authMiddlewares.js:43-60 | `next` iff access is granted, and then nothing is sent; otherwise 403 with the fail body naming the user's roles |
| Routing.DispatchLayer | routes/bookingRoutes.js:20-38 | the chain one layer offers for a request, a mounted router dispatching the rest of the path; stated by `Routing.DispatchAt` and `Routing.DispatchLayerWellOrdered` |
| Routing.Dispatch | routes/bookingRoutes.js:20-38 | the chain of the first layer that serves the request; stated by `Routing.DispatchFirstMatch`, `Routing.DispatchAt` and `Routing.DispatchNone` |
| Routing.RunChain | middlewares/authMiddlewares.js:5-60 | a chain run step by step: `protect`'s 401, `authorize`'s 403 or throw, the handler; stated by `Routing.WellOrderedNeverCrashes`, `Routing.GuardedChain`, `Routing.PublicChain` and `Routing.ReachedNamesChainHandler` |
| Routing.Serve | routes/bookingRoutes.js:20-38 | a request from dispatch to outcome with `req.user` unset; stated by `Routing.NeverCrashes`, `Routing.ServeReachesTableHandler` and the route lemmas |
| Routing.WellOrdered | middlewares/authMiddlewares.js:46 | `authorize` reads `req.user`, which only `protect` sets, so every `authorize` must follow a `protect`; used by `Routing.WellOrderedNeverCrashes` |
| Routing.DispatchFirstMatch | routes/bookingRoutes.js:20-38 | a request goes nowhere iff no layer serves it; otherwise it goes to the first layer that does |
| Routing.DispatchAt | routes/bookingRoutes.js:20-38 | a request goes to layer i when layer i serves it and no earlier layer does |
| Routing.DispatchNone | routes/bookingRoutes.js:20-38 | a stack none of whose layers serves a request sends it nowhere |
| Routing.WellOrderedNeverCrashes | middlewares/authMiddlewares.js:46 | a chain in which `protect` precedes every `authorize` never reaches `authorize` without `req.user` |
| Routing.DispatchWellOrdered | routes/propertyRoutes.js:20-38 | the chain served from a well-ordered stack, mounted routers included, is well ordered |
| Routing.DispatchLayerWellOrdered | routes/propertyRoutes.js:20-21 | the chain a single well-ordered layer serves is well ordered |
| Routing.NeverCrashes | middlewares/authMiddlewares.js:46 | on a well-ordered stack no request makes `authorize` throw |
| Routing.ProtectFirstNeverCrashes | routes/bookingRoutes.js:29-38 | on a flat stack whose every chain that authorizes starts with `protect`, no request makes `authorize` throw |
| Routing.ReachedNamesChainHandler | routes/bookingRoutes.js:20-38 | a chain only ever reaches a handler it contains |
| Routing.ServeReachesTableHandler | routes/bookingRoutes.js:20-38 | on a flat stack a request only ever reaches a handler named by one of the registered chains |
| Routing.GuardedChain | routes/bookingRoutes.js:34-35 | protect → authorize(roles) → handler ends in 401 without a session, in 403 without a shared role, and reaches the handler otherwise |
| Routing.PublicChain | routes/bookingRoutes.js:22-28 | middlewares that always call `next`, then a handler, reach the handler for anyone |
| Routing.Router.constructor | routes/bookingRoutes.js:2 | a new router has an empty stack |
| Routing.Router.Handle | routes/bookingRoutes.js:31-35 | registering a route appends exactly one endpoint layer to the stack |
| Routing.Router.Use | routes/propertyRoutes.js:20-21 | mounting a router appends one layer holding that router's stack under the prefix |
| BookingRoutes.Build | routes/bookingRoutes.js:20-38 | the module's registrations produce exactly the six-layer table in order |
| BookingRoutes.TableNeverCrashes | routes/bookingRoutes.js:29-38 | no request to the booking router makes `authorize` throw |
| BookingRoutes.CreateRoute | routes/bookingRoutes.js:29 | `POST /`: 401 without a session, then 403 unless the role is 'user', 'admin' or 'host', then `createBooking` |
| BookingRoutes.UpdateRoute | routes/bookingRoutes.js:34 | `PUT /:bookingId` reaches `updateBooking` iff the role is 'user' or 'admin'; 'host' gets 403 |
| BookingRoutes.DeleteRoute | routes/bookingRoutes.js:35 | `DELETE /:bookingId` reaches `deleteBooking` iff the role is 'user' or 'admin'; 'host' gets 403 |
| BookingRoutes.GetBookingUnrouted | routes/bookingRoutes.js:20-38 | no request to the booking router reaches `getBooking` |
| BookingRoutes.ListIsPublic | routes/bookingRoutes.js:20-28 | `GET /` reaches its handler for anyone, signed in or not, without `protect` having run |
| BookingRoutes.ReadIsPublic | routes/bookingRoutes.js:31-33 | `GET /:bookingId` reaches `getMyBookings` for anyone, signed in or not, without `protect` having run |
| BookingRoutes.MyBookingsShadowed | routes/bookingRoutes.js:33-38 | `GET /my-bookings` is dispatched to the earlier public `/:bookingId` chain, not to its own protected one, and reaches the handler without a token |
| ReviewRoutes.Build | routes/reviewRoutes.js:16-47 | the module's registrations produce exactly the seven-layer table in order |
| ReviewRoutes.TableNeverCrashes | routes/reviewRoutes.js:16-47 | no request to the review router makes `authorize` throw |
| ReviewRoutes.AddRoute | routes/reviewRoutes.js:25 | `POST /`: 401 without a session, then 'user' or 'admin' only; 'host' gets 403 |
| ReviewRoutes.UpdateRoute | routes/reviewRoutes.js:30 | `PUT /:reviewId`: the same guard as `POST /` |
| ReviewRoutes.DeleteRoute | routes/reviewRoutes.js:31 | `DELETE /:reviewId`: the same guard as `POST /` |
| ReviewRoutes.ReadsArePublic | routes/reviewRoutes.js:16-34 | `GET /`, `GET /:reviewId` and `GET /property/:propertyId` reach their handlers for anyone |
| ReviewRoutes.PropertyReviewsArePublic | routes/reviewRoutes.js:34 | `GET /property/:propertyId` reaches its handler for anyone |
| ReviewRoutes.PropertyReviewsLayer | routes/reviewRoutes.js:34 | no earlier layer takes `/property/:propertyId`; the sixth layer does |
| ReviewRoutes.MyReviewsShadowed | routes/reviewRoutes.js:29-47 | `GET /my-reviews` is served by the public `/:reviewId` chain, so it reaches `getReview` for anyone and its `protect` never runs |
| PropertyRoutes.Build | routes/propertyRoutes.js:20-38 | the nested routers are mounted first, then the five routes, in order |
| PropertyRoutes.MountsNeedTwoSegments | routes/propertyRoutes.js:20-21 | a path of fewer than two segments never reaches a mounted router |
| PropertyRoutes.CreateRoute | routes/propertyRoutes.js:32 | `POST /`: 401 without a session, then only the exact roles 'USER' or 'ADMIN'; lower-case 'user' and 'admin' get 403 |
| PropertyRoutes.UpdateRoute | routes/propertyRoutes.js:37 | `PUT /:propertyId`: the same guard as `POST /` |
| PropertyRoutes.DeleteRoute | routes/propertyRoutes.js:38 | `DELETE /:propertyId`: the same guard; the trailing comma adds no role |
| PropertyRoutes.ReadsArePublic | routes/propertyRoutes.js:23-36 | `GET /` and `GET /:propertyId` reach their handlers for anyone |
| PropertyRoutes.RoutesTakeAtMostOneSegment | routes/propertyRoutes.js:23-38 | no own route of the property router takes a path of two or more segments |
| PropertyRoutes.NestedBookings | routes/propertyRoutes.js:20 | everything under `/:propertyId/bookings` is dispatched exactly as the booking router dispatches the rest |
| PropertyRoutes.NestedReviews | routes/propertyRoutes.js:21 | everything under `/:propertyId/reviews` is dispatched exactly as the review router dispatches the rest |
| PropertyRoutes.HostThroughProperty | routes/propertyRoutes.js:20-21 | a 'host' may create a booking through `/:propertyId/bookings` but gets 403 posting a review |
| Ownership.Check | controllers/bookingController.js:45-59 | not found iff no record; permitted iff a record exists and the caller owns it or has exactly the admin role |
| Ownership.AdminOrOwner | services/propertyService.js:57 | the admin passes for every record; anyone else passes only for their own |
| Ownership.AdminLiteralMatters | controllers/bookingController.js:113 | the role 'admin' passes the 'admin' test and fails the 'ADMIN' test; a role list never passes |
| BookingController.DaysOfStay | controllers/bookingController.js:85-87 | the day count is the least whole number of days covering the stay: ceiling of the millisecond difference over a day |
| BookingController.WholeDays | controllers/bookingController.js:87 | a stay of exactly k days counts k days |
| BookingController.PartialDayRoundsUp | controllers/bookingController.js:87 | any part of a day counts as a whole day |
| BookingController.PricedBody | controllers/bookingController.js:84-90 | the body with the day count and the amount; stated by `BookingController.PlanPricing` |
| BookingController.PlanBooking | controllers/bookingController.js:70-92 | what `createBooking` stores or why it stops; stated by `BookingController.PlanStampsOwner`, `PlanNeedsProperty`, `PlanPricing`, `PlanSucceedsIff` and `CreateBooking` |
| BookingController.PlanStampsOwner | controllers/bookingController.js:71 | the outcome ignores any `userId` in the body, and a created booking belongs to the authenticated user |
| BookingController.PlanNeedsProperty | controllers/bookingController.js:73-82 | without a property of the requested id the outcome is 404 "No property with the id of …" |
| BookingController.PlanPricing | controllers/bookingController.js:84-92 | a created booking has the property's id, the day count of its dates, and amount = days × price per night; equal dates give 0 and 0 |
| BookingController.PlanSucceedsIff | controllers/bookingController.js:85-92 | once the property exists, creation succeeds iff the client's fields make a complete booking |
| BookingController.CreateBooking | controllers/bookingController.js:70-98 | `req.body` is stamped with the owner and, when the property exists, given the day count and the amount for that property's price; the store gains exactly the planned booking and 201 is sent, or nothing is stored and the failure is passed on |
| BookingController.LookupBooking | controllers/bookingController.js:104 | the first booking with the route id; stated through `BookingModel.FindBooking` and the handlers' 404 clauses |
| BookingController.OwnerOf | controllers/bookingController.js:113 | the owner of the found booking, if any; its use is stated by `Ownership.Check` and the handlers' 401 clauses |
| BookingController.GetBooking | controllers/bookingController.js:39-65 | 404 when no booking matches, then 401 unless owner or exactly 'admin', then 200 with the booking; nothing changes |
| BookingController.UpdateBooking | controllers/bookingController.js:103-131 | 404 before the ownership check; 401 unless owner or exactly 'ADMIN'; an update its validators refuse changes nothing; otherwise the booking is merged in place and sent with 200 |
| BookingController.DeleteBooking | controllers/bookingController.js:136-161 | 404 with a message ending in "undefined", then 401 unless owner or exactly 'admin'; only then the booking is removed and 200 with empty data is sent |
| BookingController.OwnedBy | controllers/bookingController.js:12 | never more bookings than are stored; its content and order are stated by `BookingController.OwnedByIsFilter` and `BookingController.OwnedByAppend` |
| BookingController.OwnedByIsFilter | controllers/bookingController.js:12 | exactly the user's bookings, each as many times as it is stored, and no other |
| BookingController.OwnedByAppend | controllers/bookingController.js:12 | the result keeps the stored order: the user's bookings of a first part come before those of the part after it |
| BookingController.MyBookings | controllers/bookingController.js:10-12 | without `req.user` the handler throws; otherwise exactly the signed-in user's bookings, each as many times as stored |
| BookingModel.WithDefaults | models/Booking.js:5-51 | the `bookingId` and `createdAt` defaults on absent paths; stated by `BookingModel.Create` and `BookingModel.CreateAsDraft` |
| BookingModel.Complete | models/Booking.js:4-52 | the schema's required paths; stated by `BookingModel.Create` and `BookingModel.NoDateOrSignConstraint` |
| BookingModel.AsDraft | models/Booking.js:4-52 | a stored booking seen as a document of all its paths; stated by `BookingModel.Create` and `BookingModel.CreateAsDraft` |
| BookingModel.Valid | models/Booking.js:4-52 | a stored booking meets the schema; stated by `BookingModel.Create` and `BookingModel.MergeKeepsValid` |
| BookingModel.Create | models/Booking.js:4-52 | creation succeeds iff, after the defaults, every required field is present; the stored booking is valid and holds exactly those values |
| BookingModel.CreateAsDraft | models/Booking.js:4-52 | creating from all fields of a valid booking gives it back: defaults never overwrite a given value |
| BookingModel.NoDateOrSignConstraint | models/Booking.js:18-33 | any dates and any amounts, reversed or negative, keep a booking valid |
| BookingModel.PaymentComplete | models/Booking.js:34-43 | both required paths of a `paymentInfo` object; stated by `BookingModel.Create` and `BookingModel.PartialPaymentInfoRefused` |
| BookingModel.UpdateAcceptable | controllers/bookingController.js:122-125 | the validators `runValidators` applies to the paths present, a `paymentInfo` object checked whole; stated by `BookingModel.MergeKeepsValid`, `BookingModel.PartialPaymentInfoRefused` and `BookingController.UpdateBooking` |
| BookingModel.Merge | controllers/bookingController.js:122-125 | the paths present replace the stored ones, a `paymentInfo` object as a whole; stated by `BookingModel.MergeKeepsValid` and `BookingController.UpdateBooking` |
| BookingModel.MergeKeepsValid | models/Booking.js:4-52 | an update its validators accept keeps a booking valid; an absent owner, id or `paymentInfo` is kept, and a `paymentInfo` sent is stored exactly as sent, nothing of the old one kept |
| BookingModel.PartialPaymentInfoRefused | models/Booking.js:34-43 | an update whose `paymentInfo` lacks `id` or `status` is refused by the validators |
| BookingModel.FindBooking | controllers/bookingController.js:104 | the position of the first booking with the id, or none iff no booking has it |
| PropertyModel.Cast | models/Property.js:4-95 | the `trim` setter, the defaults and the empty arrays, with undeclared paths dropped; stated by `PropertyModel.TitleRule`, `PropertyModel.ArraysNeverRequired` and `PropertyController.StampIsDropped` |
| PropertyModel.Complete | models/Property.js:4-95 | the schema's required paths, enums and title length; stated by `PropertyModel.Create`, `BlankTitleRefused` and `AstralTitleRefused` |
| PropertyModel.Create | models/Property.js:4-95 | creation succeeds iff the cast draft meets the schema; the stored property is valid and holds exactly the cast values |
| PropertyModel.TitleRule | models/Property.js:10-15 | the title is stored trimmed, and a stored title has at most 100 UTF-16 code units |
| PropertyModel.BlankTitleRefused | models/Property.js:10-15 | a title of white space only is refused |
| PropertyModel.AstralTitleRefused | models/Property.js:14 | a title of 51 emoji, 102 UTF-16 code units, is refused |
| PropertyModel.WithCoordinates | models/Property.js:30-34 | the empty-array default of `location.coordinates`; stated by `PropertyModel.ArraysNeverRequired` |
| PropertyModel.LocationComplete | models/Property.js:24-34 | both required paths of a `location` object, `type` being `'Point'`; stated by `PropertyModel.Create` and `PropertyModel.PartialLocationRefused` |
| PropertyModel.ArraysNeverRequired | models/Property.js:58-78 | absent amenities, photos or coordinates never make creation fail |
| PropertyModel.CreateAsDraft | models/Property.js:4-95 | creating from all fields of a valid property gives it back |
| PropertyModel.TrimOfTrimmed | models/Property.js:12 | trimming a trimmed title changes nothing |
| PropertyModel.UpdateAcceptable | services/propertyService.js:64-67 | the validators `runValidators` applies to the paths present, after `trim`, a `location` object checked whole; stated by `PropertyService.Updated`, `PropertyModel.MergeKeepsValid` and `PropertyModel.PartialLocationRefused` |
| PropertyModel.Merge | services/propertyService.js:64-67 | the paths present replace the stored ones, the title trimmed and a `location` object as a whole; stated by `PropertyModel.MergeKeepsValid` and `PropertyService.Updated` |
| PropertyModel.MergeKeepsValid | models/Property.js:4-95 | an update its validators accept keeps a property valid; an absent owner or `location` is kept, and a `location` sent is stored exactly as sent, nothing of the old one kept |
| PropertyModel.PartialLocationRefused | models/Property.js:24-34 | an update whose `location` lacks `type` or `coordinates` is refused by the validators |
| PropertyModel.FindProperty | controllers/bookingController.js:73 | the position of the first property with the id, or none iff no property has it |
| PropertyModel.LookupProperty | controllers/bookingController.js:73 | a missing id names no property; otherwise a property is found iff one has the id, and the position found holds that id |
| ReviewModel.Cast | models/Review.js:4-40 | the `trim` setter and the `reviewId` and `createdAt` defaults; stated by `ReviewModel.Build` |
| ReviewModel.Complete | models/Review.js:4-40 | the required paths, the rating bounds and the title length in UTF-16 code units; stated by `ReviewModel.Build` and `ReviewModel.RatingBounds` |
| ReviewModel.Build | models/Review.js:4-40 | a review is built iff the cast draft meets the schema; a built review has a rating in 1..5 and a title of at most 100 UTF-16 code units |
| ReviewModel.RatingBounds | models/Review.js:20-25 | a missing rating or one outside 1..5 is refused |
| ReviewModel.Key | models/Review.js:42-43 | the (property, user) pair the evident index is on; stated by `ReviewModel.InsertKeepsUnique` |
| ReviewModel.Insert | models/Review.js:42-43 | a saved review is appended to the reviews and nothing else changes |
| ReviewModel.InsertKeepsUnique | models/Review.js:42-43 | saving keeps at most one review per (property, user), and succeeds iff no review of that pair exists |
| ReviewModel.InsertAsWritten | models/Review.js:43 | a save against the index as declared appends the built review when it succeeds |
| ReviewModel.IndexAsWrittenRefusesNewPair | models/Review.js:43 | against the index as declared a valid review is saved only into an empty collection; any later save fails with a duplicate key |
| ReviewModel.NewPairRefusedAsWritten | models/Review.js:42-43 | a review of a pair with no review yet is saved by `Insert` but refused by the index as declared |
| PropertyService.GetProperties | services/propertyService.js:8-11 | always throws "This method should not be called directly" and never returns a value |
| PropertyService.GetPropertyById | services/propertyService.js:19-29 | the property with the id, or a 404 "Property not found with id of …" iff there is none |
| PropertyService.Guard | services/propertyService.js:50-62 | 404 iff no property has the id, checked before ownership; otherwise 401 unless owner or exactly 'admin'; success names a record of that id |
| PropertyService.GuardIsOwnership | services/propertyService.js:50-62 | the service's guard and the controllers' ownership verdict agree |
| PropertyService.CreateProperty | services/propertyService.js:36-38 | the data goes to create unchanged; the store gains the created property, or nothing on a validation error |
| PropertyService.UpdateProperty | services/propertyService.js:49-70 | a failed guard leaves the store untouched and reports its error; otherwise the stored property is replaced by its update and that post-update document is returned |
| PropertyService.Updated | services/propertyService.js:64-67 | an update is accepted iff its validators pass, and then an absent owner is kept |
| PropertyService.UpdateAt | services/propertyService.js:64-69 | the property at the position is replaced by its update when accepted; the store is untouched otherwise |
| PropertyService.DeleteProperty | services/propertyService.js:80-97 | the same two checks in the same order; only after both the property is removed and an empty result returned |
| PropertyController.GetProperty | controllers/propertyController.js:15-27 | 404 when no property is found, otherwise 200 with it |
| PropertyController.CreateProperty | controllers/propertyController.js:32-42 | the caller's id is written to the body's undeclared `user` path and the create sees the body as the client sent it; 201 with the stored property, or nothing stored on a validation error |
| PropertyController.StampIsDropped | controllers/propertyController.js:34-36 | writing the `user` path changes nothing that is created |
| PropertyController.CreateOwnerIsForgeable | controllers/propertyController.js:34-36 | the created property's owner is the body's own `userId`, and a body without one is refused whoever the caller is |
| PropertyController.CreateOwnerIsCaller | controllers/propertyController.js:34-36 | with the stamp on `userId`, as evidently intended: whatever owner the body names, the created property belongs to the caller |
| PropertyController.UpdateProperty | controllers/propertyController.js:47-72 | 404 before the ownership check; 401 unless owner or exactly 'admin'; then the validated update, sent with 200 |
| PropertyController.DeleteProperty | controllers/propertyController.js:77-99 | 404, then 401 unless owner or exactly 'admin'; only then removal and 200 with empty data |
| AuthService.Login | services/authService.js:23-36 | the login checks in order; stated by `AuthService.LoginGuardsFirst`, `LoginFailuresIndistinguishable` and `LoginSucceedsIff` |
| AuthService.LoginGuardsFirst | services/authService.js:24-26 | a missing or empty email or password fails with "Please provide an email and password" whatever the store and the hash |
| AuthService.LoginFailuresIndistinguishable | services/authService.js:28-36 | a wrong password fails exactly as an unknown email does: "Invalid credentials" |
| AuthService.LoginSucceedsIff | services/authService.js:23-39 | login succeeds iff both fields are given, a user has the email, and the password matches that user's stored one; the user is that stored user |
| AuthService.LoginUser | services/authService.js:23-40 | a failed check sends nothing; success sends the token response with 200 for the logged-in user |
| AuthService.RegisterUser | services/authService.js:9-13 | the user is stored as given and returned with the password cleared |
| AuthService.GetCurrentUser | services/authService.js:47-50 | the lookup's answer as it is: a stored user of that id, or none iff there is none |
| AuthService.LoginTokenOpensProtect | utils/authUtils.js:4-7 | the token a login sends opens `protect` for the same user, as the `jwt` cookie and as a "Bearer" header |
| AuthUtils.CookieExpiry | utils/authUtils.js:18-20 | the cookie expires `JWT_COOKIE_EXPIRES` days after now, in milliseconds; later than now iff that count is positive |
| AuthUtils.TokenCookieOptions | utils/authUtils.js:17-23 | the cookie is always httpOnly, and secure iff `NODE_ENV` is exactly "production" |
| AuthUtils.WithoutPassword | utils/authUtils.js:28 | the user with no password and every other field kept |
| AuthUtils.CreateSendToken | utils/authUtils.js:14-35 | one `jwt` cookie carrying the token, the given status, and a body with the same token and the password-free user |
| UserModel.FindById | middlewares/authMiddlewares.js:23 | a stored user of that id, or none iff no user has it |
| UserModel.FindByEmail | services/authService.js:28 | a stored user with that email, or none iff no user has it |
| Common.FirstWhere | controllers/bookingController.js:104 | the position of the first record that matches, or none iff none matches |
| Common.RemoveAt | controllers/bookingController.js:155 | the collection without the removed record, the others in order |
| Strings.Split | middlewares/authMiddlewares.js:9 | at least one piece, none containing the separator |
| Strings.JoinSplit | middlewares/authMiddlewares.js:9 | joining the pieces of a split gives back the string |
| Strings.SplitAfterPiece | middlewares/authMiddlewares.js:9 | a separator-free piece, the separator and a tail split into that piece and the tail's pieces |
| Strings.SplitNoSeparator | middlewares/authMiddlewares.js:9 | a string without the separator is its own single piece |
| Strings.SplitJoin | middlewares/authMiddlewares.js:9 | splitting a join of separator-free pieces gives back the pieces |
| Strings.TrimStart | models/Property.js:12 | the string without its leading white space, and nothing more removed |
| Strings.TrimEnd | models/Property.js:12 | the string without its trailing white space, and nothing more removed |
| Strings.Trim | models/Property.js:12 | a trimmed string no longer than the input |
| Strings.TrimEmptyIffBlank | models/Property.js:12-13 | trimming leaves nothing iff the string is all white space |
| Strings.TrimSurrounded | models/Property.js:12 | surrounding white space is removed and nothing else |
| Strings.TrimStartBlankPrefix | models/Property.js:12 | a blank prefix is removed up to the first non-space character |
| Strings.TrimEndBlankSuffix | models/Property.js:12 | a blank suffix is removed back to the last non-space character |
| Strings.Utf16Length | models/Property.js:14 | JavaScript's `length`: at least the number of characters and at most twice it |
| Strings.Utf16LengthOfBmp | models/Property.js:14 | without characters beyond U+FFFF, `length` is the number of characters |
| Strings.Utf16LengthOfAstral | models/Property.js:14 | made only of characters beyond U+FFFF, `length` is twice the number of characters |
| Http.Response.Status | utils/authUtils.js:30 | `res.status(code)` sets the status code and nothing else |
| Http.Response.Json | utils/authUtils.js:30-34 | `res.json(payload)` sets the body and nothing else |
| Http.Response.SetCookie | utils/authUtils.js:25 | `res.cookie` adds exactly one cookie |

## Left out

- JWT signing and verification (RFC 7519) and bcrypt comparison are oracles passed as parameters. Expiry of the token itself is part of the oracle.
- The database is sequences in natural order, not a Mongo server. `populate`, projections (`select`) and query operators are not modelled.
- Ill-formed query arguments, such as `Booking.findOne(req.params.id)` and `Property.findOne(req.params.userId)`, are modelled as a lookup by the record's own id field equal to the route's id parameter. `findById` lookups are modelled as a lookup by the record's own id field too, not by the database's `_id`; with a shortid argument the source's `findById` would fail with a CastError.
- Field-name mismatches between handlers and schemas (`booking.user`, `property.user`, `req.user.id` against `userId`) are modelled as one owner field per record. In the code as written, reads of `booking.user` and `property.user` would throw. The `req.body.user` stamp of `createProperty` is modelled as written.
- The 401 messages keep the user field each handler prints (`req.user.id` or `req.user.userId`).
- The 404 message of the property controller renders an undefined parameter and always ends in "undefined". It is modelled that way.
- The `Promise.all` join of `getMyBookings` over properties is left out. It is a set of concurrent independent reads with no decision logic. Its first step, the user's bookings, is `BookingController.MyBookings`.
- The review average-rating aggregation and the post-save and post-remove hooks are left out. They are a floating-point average computed by a database pipeline.
- The inline review handlers (`/property/:propertyId` and `/my-reviews`) are database reads. They are named by their path, and only their routing is modelled.
- `advancedResults` is modelled as a middleware that always calls `next`. Its query building is not part of this model.
- Date-string parsing and invalid dates (NaN) are not modelled. Timestamps are integer milliseconds.
- PropertyModel.Create: prices, bedrooms, bathrooms and guests are integers, not JavaScript numbers. Ratings and coordinates are reals, with no NaN or Infinity.
- A create body with no `propertyId` is treated as naming no property, which gives the 404.
- models/User.js is not part of this model. Registration stores the given user as is, with no validation or hashing.
- index.js, controllers/userController.js and services/userService.js are left out: server start-up, body parsing and pass-through handlers.
- Only the verbs GET, POST, PUT and DELETE are modelled. Express also answers HEAD with the matching GET route, and answers OPTIONS itself with an `Allow` header. The routing lemmas say nothing about those two verbs.
- Express path handling is reduced to segment sequences. Case-insensitive matching, trailing slashes, URL decoding and `mergeParams` are not modelled.
- BookingModel.Merge: update bodies are modelled with nested objects only. A body key in dot notation (`"paymentInfo.id"`) sets that one path in the source; the model has no such key. A partial `paymentInfo` object is modelled as refused by the validators, as current Mongoose update validators do. Older Mongoose versions instead store the partial object, which loses the stored sibling path; the model does not capture that.
- PropertyModel.Merge: the same for `location`. There is no dot-notation key (`"location.coordinates"`), and a partial `location` object is refused. A `location` sent in an update would also wipe the stored optional address parts, which are not modelled.
- Mongoose `required` on an array path is taken to accept the default empty array.
- The unique index of the review schema is declared on `property` and `user`, fields the schema lacks. `ReviewModel.Insert` models the evident (propertyId, userId) uniqueness; `ReviewModel.InsertAsWritten` models the index as declared (see Findings).
- The duplicate-key failure is modelled as a thrown error carrying only the "E11000 duplicate key error" prefix of MongoDB's message.
- AuthService.RegisterUser: the source clears the password on the created document in place. The model returns the cleared copy.
- AuthUtils.CreateSendToken: the source overwrites `user.password` on the caller's object. The model returns the cleared copy as `sent`.
- Routing.Router.Handle: `router.route(p).get(...).post(...)` is modelled as one endpoint layer per verb, in the same order. Dispatch gives the same result.
- The `status: 'success'` and `success: true` markers of JSON bodies are implied by the body constructors. Response serialisation is not modelled.

## Findings

| source | as written | input that shows it | evidently intended | confidence | as-written member | corrected member |
|---|---|---|---|---|---|---|
| models/Review.js:43 | the unique index is on `property` and `user`, paths the schema does not have, so every review has the same missing key | a collection holding one review of property P by user A, then a valid review of property Q by user B: it fails with E11000 | at most one review per (propertyId, userId), other pairs accepted | high, not executed | ReviewModel.NewPairRefusedAsWritten | ReviewModel.InsertKeepsUnique |
| controllers/propertyController.js:34 | the caller's id is written to `req.body.user`, which strict mode drops, so the owner is the client's `userId` | user "alice" posts a valid body with `userId` "mallory": the property is stored as owned by "mallory" | the stored owner is the authenticated user | high, not executed | PropertyController.CreateOwnerIsForgeable | PropertyController.CreateOwnerIsCaller |
