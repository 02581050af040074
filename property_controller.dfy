/** The property handlers of controllers/propertyController.js: the owner
    stamping of `createProperty` and the load / not-found / owner-or-admin /
    mutate sequence of `getProperty`, `updateProperty` and `deleteProperty`.
    Each handler returns what it passes to `next(err)`; `None` means it
    answered the request itself. */
module PropertyController {
  import opened Common
  import opened UserModel
  import opened PropertyModel
  import opened Ownership
  import opened Http
  import opened Store
  import PropertyService

  /** The 404 message renders `req.params.userId`, a parameter no property
      route declares, so it always ends in "undefined". */
  function NotFoundMessage(): string
  {
    "Property not found with userId of " + Show(None)
  }

  function OwnerOf(properties: seq<Property>, found: Option<nat>): Option<string>
  {
    if found.Some? && found.value < |properties| then Some(properties[found.value].userId) else None
  }

  /** `getProperty`: 404 when nothing is found, otherwise the property. */
  method GetProperty(db: Db, req: Request<PropertyDraft>, res: Response) returns (err: Option<Failure>)
    modifies res`statusCode, res`body
    ensures var found := LookupProperty(db.properties, req.routeId);
      && (found.None? ==> err == Some(ErrorResponse(404, NotFoundMessage()))
                          && res.statusCode == old(res.statusCode) && res.body == old(res.body))
      && (found.Some? ==> err.None? && res.statusCode == 200
                          && res.body == Some(SuccessBody(PropertyData(db.properties[found.value]))))
  {
    var found := LookupProperty(db.properties, req.routeId);
    if found.None? {
      return Some(ErrorResponse(404, NotFoundMessage()));
    }
    res.Status(200);
    res.Json(SuccessBody(PropertyData(db.properties[found.value])));
    return None;
  }

  /** `createProperty`: the caller's id is written to the body's `user`
      path, which the schema does not declare, so the owner stored is the
      body's own `userId`; the stored document is sent with 201. */
  method CreateProperty(db: Db, req: Request<PropertyDraft>, res: Response, freshId: string, now: int)
    returns (err: Option<Failure>)
    requires req.user.Some? && freshId != ""
    modifies db`properties, req`body, res`statusCode, res`body
    ensures req.body == old(req.body).(user := Some(req.user.value.userId))
    ensures var created := Create(old(req.body), freshId, now);
      && (created.Some? ==> err.None? && db.properties == old(db.properties) + [created.value]
                            && res.statusCode == 201 && res.body == Some(SuccessBody(PropertyData(created.value))))
      && (created.None? ==> err == Some(ValidationError) && db.properties == old(db.properties)
                            && res.statusCode == old(res.statusCode) && res.body == old(res.body))
  {
    req.body := req.body.(user := Some(req.user.value.userId));
    var created := Create(req.body, freshId, now);
    assert created == Create(old(req.body), freshId, now) by {
      StampIsDropped(old(req.body), req.user.value.userId, freshId, now);
    }
    if created.None? {
      return Some(ValidationError);
    }
    db.properties := db.properties + [created.value];
    res.Status(201);
    res.Json(SuccessBody(PropertyData(created.value)));
    return None;
  }

  /** Writing the undeclared `user` path changes nothing that is stored. */
  lemma StampIsDropped(body: PropertyDraft, userId: string, freshId: string, now: int)
    requires freshId != ""
    ensures Create(body.(user := Some(userId)), freshId, now) == Create(body, freshId, now)
  {
    assert Cast(body.(user := Some(userId)), freshId, now) == Cast(body, freshId, now);
  }

  /** As written, the owner of a created property is whoever the body names:
      a forged `userId` is stored as is, and a body without one is refused
      whoever the caller is. */
  lemma CreateOwnerIsForgeable(body: PropertyDraft, user: User, freshId: string, now: int)
    requires freshId != ""
    ensures var created := Create(body.(user := Some(user.userId)), freshId, now);
      && (body.userId.None? ==> created.None?)
      && (created.Some? ==> body.userId.Some? && created.value.userId == body.userId.value)
  {
    StampIsDropped(body, user.userId, freshId, now);
  }

  /** The evidently intended stamp, on the path the schema declares: whatever
      owner a create body names, the stored property belongs to the
      authenticated user, and the body's owner has no other effect. */
  lemma CreateOwnerIsCaller(body: PropertyDraft, user: User, forged: Option<string>, freshId: string, now: int)
    requires freshId != ""
    ensures Create(body.(userId := Some(user.userId)), freshId, now) ==
            Create(body.(userId := forged).(userId := Some(user.userId)), freshId, now)
    ensures Create(body.(userId := Some(user.userId)), freshId, now).Some? ==>
            Create(body.(userId := Some(user.userId)), freshId, now).value.userId == user.userId
  {
    assert body.(userId := Some(user.userId)) == body.(userId := forged).(userId := Some(user.userId));
  }

  /** `updateProperty`: 404, then owner or exactly 'admin' (401), then the
      update with validators; the updated document is sent with 200. */
  method UpdateProperty(db: Db, req: Request<PropertyDraft>, res: Response) returns (err: Option<Failure>)
    requires req.user.Some?
    modifies db`properties, res`statusCode, res`body
    ensures var found := LookupProperty(old(db.properties), req.routeId);
      var user := req.user.value;
      match Check(OwnerOf(old(db.properties), found), user.userId, user.role, "admin")
      case NotFound =>
        && err == Some(ErrorResponse(404, NotFoundMessage()))
        && db.properties == old(db.properties)
        && res.statusCode == old(res.statusCode) && res.body == old(res.body)
      case NotAuthorized =>
        && err == Some(ErrorResponse(401, "User " + user.id + " is not authorized to update this property"))
        && db.properties == old(db.properties)
        && res.statusCode == old(res.statusCode) && res.body == old(res.body)
      case Permitted =>
        match PropertyService.Updated(old(db.properties)[found.value], req.body)
        case Ok(updated) =>
          && err.None? && db.properties == old(db.properties)[found.value := updated]
          && res.statusCode == 200 && res.body == Some(SuccessBody(PropertyData(updated)))
        case Err(failure) =>
          && err == Some(failure) && db.properties == old(db.properties)
          && res.statusCode == old(res.statusCode) && res.body == old(res.body)
  {
    var found := LookupProperty(db.properties, req.routeId);
    if found.None? {
      return Some(ErrorResponse(404, NotFoundMessage()));
    }
    var property := db.properties[found.value];
    var user := req.user.value;
    if property.userId != user.userId && !IsRole(user.role, "admin") {
      return Some(ErrorResponse(401, "User " + user.id + " is not authorized to update this property"));
    }
    var updated := PropertyService.UpdateAt(db, found.value, req.body);
    if updated.Err? {
      return Some(updated.failure);
    }
    res.Status(200);
    res.Json(SuccessBody(PropertyData(updated.value)));
    return None;
  }

  /** `deleteProperty`: 404, then owner or exactly 'admin' (401), and only
      then removal; the answer is 200 with empty data. */
  method DeleteProperty(db: Db, req: Request<PropertyDraft>, res: Response) returns (err: Option<Failure>)
    requires req.user.Some?
    modifies db`properties, res`statusCode, res`body
    ensures var found := LookupProperty(old(db.properties), req.routeId);
      var user := req.user.value;
      match Check(OwnerOf(old(db.properties), found), user.userId, user.role, "admin")
      case NotFound =>
        && err == Some(ErrorResponse(404, NotFoundMessage()))
        && db.properties == old(db.properties)
        && res.statusCode == old(res.statusCode) && res.body == old(res.body)
      case NotAuthorized =>
        && err == Some(ErrorResponse(401, "User " + user.userId + " is not authorized to delete this property"))
        && db.properties == old(db.properties)
        && res.statusCode == old(res.statusCode) && res.body == old(res.body)
      case Permitted =>
        && err.None? && db.properties == RemoveAt(old(db.properties), found.value)
        && res.statusCode == 200 && res.body == Some(SuccessBody(EmptyData))
  {
    var found := LookupProperty(db.properties, req.routeId);
    if found.None? {
      return Some(ErrorResponse(404, NotFoundMessage()));
    }
    var property := db.properties[found.value];
    var user := req.user.value;
    if property.userId != user.userId && !IsRole(user.role, "admin") {
      return Some(ErrorResponse(401, "User " + user.userId + " is not authorized to delete this property"));
    }
    db.properties := RemoveAt(db.properties, found.value);
    res.Status(200);
    res.Json(SuccessBody(EmptyData));
    return None;
  }
}
