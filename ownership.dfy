/** The owner-or-admin check that the booking and property handlers run
    after loading a record and before touching it. Each handler compares
    against its own admin literal: 'ADMIN' in the booking update, 'admin'
    everywhere else. */
module Ownership {
  import opened Common
  import opened UserModel

  datatype Verdict = NotFound | NotAuthorized | Permitted

  /** `role !== literal` is false exactly for the single string `literal`:
      a list of roles is never equal to a string. */
  predicate IsRole(role: RoleValue, literal: string)
  {
    role == One(literal)
  }

  /** `owner` is the loaded record's owner, `None` when nothing was found.
      Not-found is decided first; then the acting user must own the record
      or hold exactly the admin role. */
  function Check(owner: Option<string>, userId: string, role: RoleValue, adminRole: string): (v: Verdict)
    ensures v == NotFound <==> owner.None?
    ensures v == Permitted <==> owner.Some? && (owner.value == userId || IsRole(role, adminRole))
  {
    if owner.None? then NotFound
    else if owner.value != userId && !IsRole(role, adminRole) then NotAuthorized
    else Permitted
  }

  /** The admin holds every record, whoever owns it; anybody else holds
      only their own records. */
  lemma AdminOrOwner(owner: string, userId: string, role: RoleValue, adminRole: string)
    ensures IsRole(role, adminRole) ==> Check(Some(owner), userId, role, adminRole) == Permitted
    ensures !IsRole(role, adminRole) && owner != userId ==> Check(Some(owner), userId, role, adminRole) == NotAuthorized
  {
  }

  /** Role literals are compared exactly: a lowercase 'admin' passes the
      checks written with 'admin' and fails the one written with 'ADMIN',
      and a role given as a list passes neither. */
  lemma AdminLiteralMatters(owner: string, userId: string)
    requires owner != userId
    ensures Check(Some(owner), userId, One("admin"), "admin") == Permitted
    ensures Check(Some(owner), userId, One("admin"), "ADMIN") == NotAuthorized
    ensures Check(Some(owner), userId, Many(["admin"]), "admin") == NotAuthorized
  {
  }
}
