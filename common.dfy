/** Values shared by every part of the model: optional values, results, the
    failures that handlers throw or hand to Express's `next(err)`, and the
    "first document that matches" lookup that MongoDB's `findOne` performs. */
module Common {

  datatype Option<+T> = None | Some(value: T)

  /** JavaScript truthiness of a value that is a string or `undefined`:
      present and non-empty. Mongoose's `required` validator on a String
      path accepts exactly the same values. */
  predicate Truthy(s: Option<string>)
  {
    s.Some? && s.value != ""
  }

  /** How JavaScript renders a string that may be `undefined` inside a
      template literal. */
  function Show(s: Option<string>): string
  {
    if s.Some? then s.value else "undefined"
  }

  /** Milliseconds in a day, `1000 * 60 * 60 * 24`. */
  const MillisPerDay: int := 1000 * 60 * 60 * 24

  /** What a handler throws or passes to `next(err)`. */
  datatype Failure =
    | ErrorResponse(statusCode: int, message: string)  // an error carrying an HTTP status
    | ValidationError                                  // Mongoose refused to store a document
    | Thrown(message: string)                          // any other error thrown with this message

  datatype Result<+T> = Ok(value: T) | Err(failure: Failure)

  /** The position of the first element of `s` satisfying `p`: how `findOne`
      picks a document from a collection kept in natural order. */
  function FirstWhere<T>(s: seq<T>, p: T -> bool): (r: Option<nat>)
    ensures r.Some? ==> r.value < |s| && p(s[r.value])
    ensures r.Some? ==> forall j :: 0 <= j < r.value ==> !p(s[j])
    ensures r.None? ==> forall j :: 0 <= j < |s| ==> !p(s[j])
  {
    if s == [] then None
    else if p(s[0]) then Some(0)
    else match FirstWhere(s[1..], p)
      case None => None
      case Some(k) => Some(k + 1)
  }

  /** The value an update gives for a path, or the stored one when the
      update leaves the path out. */
  function Pick<T>(given: Option<T>, current: T): T
  {
    if given.Some? then given.value else current
  }

  /** `s` with its element at position `i` taken out, as `document.remove()`
      leaves a collection. */
  function RemoveAt<T>(s: seq<T>, i: nat): (r: seq<T>)
    requires i < |s|
    ensures |r| == |s| - 1
    ensures forall j :: 0 <= j < i ==> r[j] == s[j]
    ensures forall j :: i <= j < |r| ==> r[j] == s[j + 1]
  {
    s[..i] + s[i + 1..]
  }
}
