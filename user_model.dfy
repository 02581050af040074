/** The user record as the core reads it. The user schema itself
    (models/User.js) is not part of this model: only the fields the core
    touches are kept, and password hashing is left to it. */
module UserModel {
  import opened Common

  /** `req.user.role`: normally one string, defensively a list of strings. */
  datatype RoleValue = One(role: string) | Many(roles: seq<string>)

  /** `id` is the document's `_id` (the claim a token carries); `userId` is
      the application-level id that records name as their owner. `password`
      is `None` once it has been cleared from an object sent to a client. */
  datatype User = User(id: string, userId: string, email: string, password: Option<string>, role: RoleValue)

  /** `User.findById(id)` over the users collection in natural order. */
  function FindById(users: seq<User>, id: string): (r: Option<User>)
    ensures r.Some? ==> r.value in users && r.value.id == id
    ensures r.None? <==> forall j :: 0 <= j < |users| ==> users[j].id != id
  {
    match FirstWhere(users, (u: User) => u.id == id)
    case None => None
    case Some(i) => Some(users[i])
  }

  /** `User.findOne({ email })`: the first user with that email. */
  function FindByEmail(users: seq<User>, email: string): (r: Option<User>)
    ensures r.Some? ==> r.value in users && r.value.email == email
    ensures r.None? <==> forall j :: 0 <= j < |users| ==> users[j].email != email
  {
    match FirstWhere(users, (u: User) => u.email == email)
    case None => None
    case Some(i) => Some(users[i])
  }
}
