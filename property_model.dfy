/** The property schema (models/Property.js) as a validity predicate, the
    defaults and `trim` setter Mongoose applies, and the merge an update
    performs. Prices and room counts are integers here; coordinates are
    reals. */
module PropertyModel {
  import opened Common
  import opened Strings

  const MaxTitleLength := 100

  /** The `propertyType` enum, in the schema's order. */
  const PropertyTypes: seq<string> := ["Apartment", "House", "Villa", "Cabin", "Cottage", "Loft", "Other"]

  /** The nested `location` object of a stored property: `location.type`
      and `location.coordinates`. Its optional address parts are left out. */
  datatype Location = Location(geoType: string, coordinates: seq<real>)

  /** A stored property; `userId` is the owner. */
  datatype Property = Property(
    propertyId: string, title: string, description: string, address: string,
    location: Location,
    pricePerNight: int, bedrooms: int, bathrooms: int, guests: int,
    amenities: seq<string>, propertyType: string, photos: seq<string>,
    isFeatured: bool, createdAt: int, userId: string)

  /** A `location` object as a client sends it: either path may be absent. */
  datatype LocationDraft = LocationDraft(geoType: Option<string>, coordinates: Option<seq<real>>)

  /** A request body or an update: any of the fields, each possibly absent.
      `location` is one value, sent as a whole object or not at all. `user`
      stands for a path the schema does not declare. */
  datatype PropertyDraft = PropertyDraft(
    propertyId: Option<string>, title: Option<string>, description: Option<string>, address: Option<string>,
    location: Option<LocationDraft>,
    pricePerNight: Option<int>, bedrooms: Option<int>, bathrooms: Option<int>, guests: Option<int>,
    amenities: Option<seq<string>>, propertyType: Option<string>, photos: Option<seq<string>>,
    isFeatured: Option<bool>, createdAt: Option<int>, userId: Option<string>,
    user: Option<string>)

  /** What Mongoose does on assignment, before validating: `title` is
      trimmed; `propertyId`, `isFeatured` and `createdAt` take their defaults
      when absent; an absent array path becomes the empty array, the one
      inside `location` included, so a document always has a `location`; the
      undeclared `user` path is dropped, as strict mode does. */
  function Cast(d: PropertyDraft, freshId: string, now: int): PropertyDraft
  {
    d.(propertyId := if d.propertyId.None? then Some(freshId) else d.propertyId,
       title := if d.title.Some? then Some(Trim(d.title.value)) else None,
       location := Some(WithCoordinates(if d.location.Some? then d.location.value else LocationDraft(None, None))),
       amenities := if d.amenities.None? then Some([]) else d.amenities,
       photos := if d.photos.None? then Some([]) else d.photos,
       isFeatured := if d.isFeatured.None? then Some(false) else d.isFeatured,
       createdAt := if d.createdAt.None? then Some(now) else d.createdAt,
       user := None)
  }

  /** The array default inside `location`. */
  function WithCoordinates(l: LocationDraft): LocationDraft
  {
    l.(coordinates := if l.coordinates.None? then Some([]) else l.coordinates)
  }

  /** Both `required` paths of a `location` object: the `Point` enum and an
      array of coordinates. */
  predicate LocationComplete(l: LocationDraft)
  {
    l.geoType == Some("Point") && l.coordinates.Some?
  }

  predicate TitleOk(title: string)
  {
    title != "" && Utf16Length(title) <= MaxTitleLength
  }

  /** The schema's rules: the required fields, the two enums and the title
      length. A `required` array only has to be an array, which the cast
      always makes it. */
  predicate Complete(d: PropertyDraft)
  {
    && Truthy(d.propertyId)
    && d.title.Some? && TitleOk(d.title.value)
    && Truthy(d.description) && Truthy(d.address)
    && d.location.Some? && LocationComplete(d.location.value)
    && d.pricePerNight.Some? && d.bedrooms.Some? && d.bathrooms.Some? && d.guests.Some?
    && d.amenities.Some?
    && d.propertyType.Some? && d.propertyType.value in PropertyTypes
    && d.photos.Some? && d.isFeatured.Some? && d.createdAt.Some?
    && Truthy(d.userId)
  }

  function AsDraft(p: Property): PropertyDraft
  {
    PropertyDraft(Some(p.propertyId), Some(p.title), Some(p.description), Some(p.address),
      Some(LocationDraft(Some(p.location.geoType), Some(p.location.coordinates))),
      Some(p.pricePerNight), Some(p.bedrooms), Some(p.bathrooms), Some(p.guests),
      Some(p.amenities), Some(p.propertyType), Some(p.photos),
      Some(p.isFeatured), Some(p.createdAt), Some(p.userId), None)
  }

  /** A stored property satisfies the schema and its title is trimmed. */
  predicate Valid(p: Property)
  {
    Complete(AsDraft(p)) && Trimmed(p.title)
  }

  /** `Property.create(d)`: cast, validate, store exactly the cast values;
      `None` is the ValidationError. */
  function Create(d: PropertyDraft, freshId: string, now: int): (r: Option<Property>)
    requires freshId != ""
    ensures r.Some? <==> Complete(Cast(d, freshId, now))
    ensures r.Some? ==> Valid(r.value) && AsDraft(r.value) == Cast(d, freshId, now)
  {
    var e := Cast(d, freshId, now);
    if !Complete(e) then None
    else Some(Property(e.propertyId.value, e.title.value, e.description.value, e.address.value,
      Location(e.location.value.geoType.value, e.location.value.coordinates.value),
      e.pricePerNight.value, e.bedrooms.value, e.bathrooms.value, e.guests.value,
      e.amenities.value, e.propertyType.value, e.photos.value,
      e.isFeatured.value, e.createdAt.value, e.userId.value))
  }

  /** The title rule in the schema's own terms: present, at most 100
      UTF-16 code units and not blank once trimmed. Surrounding white space
      never counts towards the limit. */
  lemma TitleRule(d: PropertyDraft, freshId: string, now: int, pre: string, text: string, post: string)
    requires d.title == Some(pre + text + post)
    requires Blank(pre) && Blank(post) && text != [] && Trimmed(text)
    ensures Cast(d, freshId, now).title == Some(text)
    ensures Complete(Cast(d, freshId, now)) ==> Utf16Length(text) <= MaxTitleLength && |text| <= MaxTitleLength
  {
    TrimSurrounded(pre, text, post);
  }

  /** The limit counts UTF-16 code units: 51 emoji make 102 units, and a
      title of them is refused though it has only 51 characters. */
  lemma AstralTitleRefused(d: PropertyDraft, freshId: string, now: int)
    requires freshId != ""
    requires d.title == Some(seq(51, _ => '\U{1F600}'))
    ensures Create(d, freshId, now).None?
  {
    var title := d.title.value;
    assert Trimmed(title);
    assert Trim(title) == title;
    Utf16LengthOfAstral(title);
  }

  /** A blank title is refused. */
  lemma BlankTitleRefused(d: PropertyDraft, freshId: string, now: int)
    requires freshId != ""
    requires d.title.Some? && Blank(d.title.value)
    ensures Create(d, freshId, now).None?
  {
    TrimEmptyIffBlank(d.title.value);
  }

  /** Absent photos, amenities or coordinates never make creation fail: the
      cast supplies empty arrays, which `required` accepts. */
  lemma ArraysNeverRequired(d: PropertyDraft, freshId: string, now: int)
    requires freshId != ""
    ensures Create(d, freshId, now).Some? <==>
            Create(d.(photos := None, amenities := None,
                      location := if d.location.Some? then Some(d.location.value.(coordinates := None)) else None),
                   freshId, now).Some?
  {
  }

  /** Re-creating a valid property from all its fields gives it back. */
  lemma {:induction false} CreateAsDraft(p: Property, freshId: string, now: int)
    requires freshId != "" && Valid(p)
    ensures Create(AsDraft(p), freshId, now) == Some(p)
  {
    TrimOfTrimmed(p.title);
  }

  /** Trimming a trimmed string changes nothing. */
  lemma TrimOfTrimmed(s: string)
    requires Trimmed(s)
    ensures Trim(s) == s
  {
    if s != [] {
      TrimSurrounded([], s, []);
      assert [] + s + [] == s;
    }
  }

  /** An update's validators: `runValidators` checks the paths present, and
      the `trim` setter runs first. A `location` object in an update
      replaces the stored one whole, so both of its required paths are
      checked: one it leaves out counts as unset. */
  predicate UpdateAcceptable(u: PropertyDraft)
  {
    && (u.propertyId.Some? ==> u.propertyId.value != "")
    && (u.title.Some? ==> TitleOk(Trim(u.title.value)))
    && (u.description.Some? ==> u.description.value != "")
    && (u.address.Some? ==> u.address.value != "")
    && (u.location.Some? ==> LocationComplete(u.location.value))
    && (u.propertyType.Some? ==> u.propertyType.value in PropertyTypes)
    && (u.userId.Some? ==> u.userId.value != "")
  }

  /** `findByIdAndUpdate(id, u, { new: true })` once the validators have
      accepted `u`: every field present in `u` replaces the stored one, the
      title trimmed and the whole `location` replaced. */
  function Merge(p: Property, u: PropertyDraft): Property
    requires UpdateAcceptable(u)
  {
    Property(Pick(u.propertyId, p.propertyId),
      if u.title.Some? then Trim(u.title.value) else p.title,
      Pick(u.description, p.description), Pick(u.address, p.address),
      if u.location.Some? then Location(u.location.value.geoType.value, u.location.value.coordinates.value)
      else p.location,
      Pick(u.pricePerNight, p.pricePerNight), Pick(u.bedrooms, p.bedrooms),
      Pick(u.bathrooms, p.bathrooms), Pick(u.guests, p.guests),
      Pick(u.amenities, p.amenities), Pick(u.propertyType, p.propertyType), Pick(u.photos, p.photos),
      Pick(u.isFeatured, p.isFeatured), Pick(u.createdAt, p.createdAt), Pick(u.userId, p.userId))
  }

  /** An update its validators accept keeps a valid property valid; an
      update that does not mention the owner keeps it, and a `location` it
      carries leaves nothing of the stored one. */
  lemma MergeKeepsValid(p: Property, u: PropertyDraft)
    requires Valid(p) && UpdateAcceptable(u)
    ensures Valid(Merge(p, u))
    ensures u.userId.None? ==> Merge(p, u).userId == p.userId
    ensures u.location.None? ==> Merge(p, u).location == p.location
    ensures u.location.Some? ==> AsDraft(Merge(p, u)).location == u.location
  {
  }

  /** An update carrying only part of `location` is refused, whatever the
      stored property holds: the sibling it leaves out is not kept. */
  lemma PartialLocationRefused(u: PropertyDraft)
    requires u.location.Some? && (u.location.value.geoType.None? || u.location.value.coordinates.None?)
    ensures !UpdateAcceptable(u)
  {
  }

  /** `Property.findOne({ propertyId: id })`: the position of the first
      property with that id. */
  function FindProperty(properties: seq<Property>, id: string): (r: Option<nat>)
    ensures r.Some? ==> r.value < |properties| && properties[r.value].propertyId == id
    ensures r.Some? ==> forall j :: 0 <= j < r.value ==> properties[j].propertyId != id
    ensures r.None? <==> forall j :: 0 <= j < |properties| ==> properties[j].propertyId != id
  {
    FirstWhere(properties, (p: Property) => p.propertyId == id)
  }

  /** The property an optional id names: a missing id (an absent route
      parameter or body field) names none. */
  function LookupProperty(properties: seq<Property>, id: Option<string>): (r: Option<nat>)
    ensures r.Some? ==> id.Some? && r.value < |properties| && properties[r.value].propertyId == id.value
    ensures r.None? <==> id.None? || forall j :: 0 <= j < |properties| ==> properties[j].propertyId != id.value
  {
    if id.None? then None else FindProperty(properties, id.value)
  }
}
