/** services/propertyService.js: the property operations behind the
    controllers, which throw instead of calling `next`. A thrown failure is
    the `Err` of a `Result`. */
module PropertyService {
  import opened Common
  import opened UserModel
  import opened PropertyModel
  import opened Ownership
  import opened Store

  /** `getProperties`: listing is done elsewhere, so calling it always throws. */
  function GetProperties(): (r: Result<seq<Property>>)
    ensures r.Err? && r.failure.Thrown?
    ensures r.failure.message == "This method should not be called directly"
  {
    Err(Thrown("This method should not be called directly"))
  }

  function NotFoundMessage(id: string): string
  {
    "Property not found with id of " + id
  }

  /** `getPropertyById`: the first property with the id, or a 404. */
  function GetPropertyById(properties: seq<Property>, id: string): (r: Result<Property>)
    ensures r.Ok? ==> r.value in properties && r.value.propertyId == id
    ensures r.Err? <==> forall j :: 0 <= j < |properties| ==> properties[j].propertyId != id
    ensures r.Err? ==> r.failure == ErrorResponse(404, NotFoundMessage(id))
  {
    match FindProperty(properties, id)
    case None => Err(ErrorResponse(404, NotFoundMessage(id)))
    case Some(i) => Ok(properties[i])
  }

  /** The two checks `updateProperty` and `deleteProperty` run before they
      touch the store: the property must exist (404), and the caller must
      own it or have exactly the role 'admin' (401). `action` names the
      operation in the 401 message. */
  function Guard(properties: seq<Property>, id: string, userId: string, userRole: RoleValue, action: string): (r: Result<nat>)
    ensures r.Ok? ==> r.value < |properties| && properties[r.value].propertyId == id
    ensures r.Ok? ==> properties[r.value].userId == userId || IsRole(userRole, "admin")
    ensures r == Err(ErrorResponse(404, NotFoundMessage(id))) <==>
            forall j :: 0 <= j < |properties| ==> properties[j].propertyId != id
    ensures r.Err? ==> (r.failure == ErrorResponse(404, NotFoundMessage(id)) ||
                        r.failure == ErrorResponse(401, "User " + userId + " is not authorized to " + action + " this property"))
  {
    match FindProperty(properties, id)
    case None => Err(ErrorResponse(404, NotFoundMessage(id)))
    case Some(i) =>
      match Check(Some(properties[i].userId), userId, userRole, "admin")
      case Permitted => Ok(i)
      case _ => Err(ErrorResponse(401, "User " + userId + " is not authorized to " + action + " this property"))
  }

  /** The guard decides on the first property with the id and on nothing
      else: an owner or an 'admin' gets through, anyone else is refused. */
  lemma GuardIsOwnership(properties: seq<Property>, id: string, userId: string, userRole: RoleValue, action: string, i: nat)
    requires FindProperty(properties, id) == Some(i)
    ensures Guard(properties, id, userId, userRole, action).Ok? <==>
            Check(Some(properties[i].userId), userId, userRole, "admin") == Permitted
    ensures Guard(properties, id, userId, userRole, action).Ok? ==>
            Guard(properties, id, userId, userRole, action).value == i
  {
  }

  /** `createProperty`: the data goes to `Property.create` unchanged. */
  method CreateProperty(db: Db, propertyData: PropertyDraft, freshId: string, now: int) returns (r: Result<Property>)
    requires freshId != ""
    modifies db`properties
    ensures r.Ok? <==> Create(propertyData, freshId, now).Some?
    ensures r.Ok? ==> Some(r.value) == Create(propertyData, freshId, now) && db.properties == old(db.properties) + [r.value]
    ensures r.Err? ==> r.failure == ValidationError && db.properties == old(db.properties)
  {
    var created := Create(propertyData, freshId, now);
    if created.None? {
      return Err(ValidationError);
    }
    db.properties := db.properties + [created.value];
    return Ok(created.value);
  }

  /** `updateProperty`: both checks (`Guard`), then the update with
      validators; the updated document is returned. The store is written
      only when every check has passed. */
  method UpdateProperty(db: Db, id: string, updateData: PropertyDraft, userId: string, userRole: RoleValue)
    returns (r: Result<Property>)
    modifies db`properties
    ensures var guard := Guard(old(db.properties), id, userId, userRole, "update");
      && (guard.Err? ==> r == Err(guard.failure) && db.properties == old(db.properties))
      && (guard.Ok? ==> r == Updated(old(db.properties)[guard.value], updateData)
                        && db.properties == if r.Ok? then old(db.properties)[guard.value := r.value] else old(db.properties))
  {
    var guard := Guard(db.properties, id, userId, userRole, "update");
    if guard.Err? {
      return Err(guard.failure);
    }
    r := UpdateAt(db, guard.value, updateData);
  }

  /** `findByIdAndUpdate(id, u, { new: true, runValidators: true })` on a
      stored property: the validators of the paths present, then the merge;
      the document after the update is the result. */
  function Updated(p: Property, u: PropertyDraft): (r: Result<Property>)
    ensures r.Ok? <==> UpdateAcceptable(u)
    ensures r.Err? ==> r.failure == ValidationError
    ensures r.Ok? && u.userId.None? ==> r.value.userId == p.userId
  {
    if UpdateAcceptable(u) then Ok(Merge(p, u)) else Err(ValidationError)
  }

  method UpdateAt(db: Db, i: nat, u: PropertyDraft) returns (r: Result<Property>)
    requires i < |db.properties|
    modifies db`properties
    ensures r == Updated(old(db.properties)[i], u)
    ensures db.properties == if r.Ok? then old(db.properties)[i := r.value] else old(db.properties)
  {
    r := Updated(db.properties[i], u);
    if r.Ok? {
      db.properties := db.properties[i := r.value];
    }
  }

  /** `deleteProperty`: both checks (`Guard`), then removal; the empty object `{}` is
      the `()` of a successful result. */
  method DeleteProperty(db: Db, id: string, userId: string, userRole: RoleValue) returns (r: Result<()>)
    modifies db`properties
    ensures match Guard(old(db.properties), id, userId, userRole, "delete")
      case Err(failure) => r == Err(failure) && db.properties == old(db.properties)
      case Ok(i) => r == Ok(()) && db.properties == RemoveAt(old(db.properties), i)
  {
    var guard := Guard(db.properties, id, userId, userRole, "delete");
    if guard.Err? {
      return Err(guard.failure);
    }
    db.properties := RemoveAt(db.properties, guard.value);
    return Ok(());
  }
}
