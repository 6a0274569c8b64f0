/**
 * The Occurrence document of backend/src/models/Occurrence.js: the stored
 * record, the fields a caller hands to the schema, and the schema's
 * validation with its defaults.
 */
module OccurrenceModel {
  import opened Base

  /** The one value `location.type` may take, which is also its default. */
  const PointKind := "Point"

  /** A GeoJSON point: `kind` is `location.type`, the coordinates are stored as `[lng, lat]`. */
  datatype Location = Location(kind: string, coordinates: seq<real>)

  /**
   * A stored incident report. `kind` is the schema's `type` path (`type` is a
   * Dafny keyword), `photoUrl` is None for JavaScript's null and `createdAt`
   * is a time in milliseconds.
   */
  datatype Occurrence = Occurrence(
    kind: string,
    description: string,
    location: Location,
    photoUrl: Option<string>,
    createdAt: int)

  /** The paths of the schema that carry a validator. */
  datatype Path = KindPath | DescriptionPath | LocationKindPath | CoordinatesPath

  /** What a caller supplies to the model's constructor; None is a path that was not supplied. */
  datatype Draft = Draft(
    kind: Option<string>,
    description: Option<string>,
    locationKind: Option<string>,
    coordinates: Option<seq<real>>,
    photoUrl: Option<string>,
    createdAt: Option<int>)

  /** Mongoose's `required` check on a String path: supplied, and not the empty string. */
  predicate RequiredString(v: Option<string>)
  {
    v.Some? && v.value != ""
  }

  /** The `enum: ['Point']` check: a supplied value must be `'Point'`; an unsupplied one takes the default. */
  predicate PointOrDefault(v: Option<string>)
  {
    v.None? || v.value == PointKind
  }

  /** Every stored document satisfies the schema. */
  predicate Valid(o: Occurrence)
  {
    && o.kind != ""
    && o.description != ""
    && o.location.kind == PointKind
  }

  /** The paths whose validator rejects the draft. */
  function Violations(d: Draft): set<Path>
  {
    (if RequiredString(d.kind) then {} else {KindPath})
    + (if RequiredString(d.description) then {} else {DescriptionPath})
    + (if PointOrDefault(d.locationKind) then {} else {LocationKindPath})
    + (if d.coordinates.Some? then {} else {CoordinatesPath})
  }

  /**
   * Validating and defaulting a draft at the instant `now`: a validation error
   * names every failing path; otherwise the defaults fill what was not supplied
   * (`location.type` 'Point', `photoUrl` null, `createdAt` now).
   */
  function Create(d: Draft, now: int): (r: Result<Occurrence, set<Path>>)
    ensures r.Success? <==>
              RequiredString(d.kind) && RequiredString(d.description)
              && PointOrDefault(d.locationKind) && d.coordinates.Some?
    ensures r.Failure? ==> r.error != {}
    ensures r.Failure? ==>
              && (KindPath in r.error <==> !RequiredString(d.kind))
              && (DescriptionPath in r.error <==> !RequiredString(d.description))
              && (LocationKindPath in r.error <==> !PointOrDefault(d.locationKind))
              && (CoordinatesPath in r.error <==> d.coordinates.None?)
    ensures r.Success? ==>
              && Valid(r.value)
              && r.value.kind == d.kind.value
              && r.value.description == d.description.value
              && r.value.location.coordinates == d.coordinates.value
              && r.value.photoUrl == d.photoUrl
              && r.value.createdAt == (if d.createdAt.Some? then d.createdAt.value else now)
  {
    var errors := Violations(d);
    if errors != {} then
      Failure(errors)
    else
      Success(Occurrence(
        d.kind.value,
        d.description.value,
        Location(PointKind, d.coordinates.value),
        d.photoUrl,
        if d.createdAt.Some? then d.createdAt.value else now))
  }

  /** The draft that supplies every path of a stored document explicitly. */
  function ToDraft(o: Occurrence): Draft
  {
    Draft(Some(o.kind), Some(o.description), Some(o.location.kind),
          Some(o.location.coordinates), o.photoUrl, Some(o.createdAt))
  }

  /** A document that satisfies the schema is rebuilt exactly from its own fields, at any instant. */
  lemma CreateToDraft(o: Occurrence, now: int)
    requires Valid(o)
    ensures Create(ToDraft(o), now) == Success(o)
  {
  }

  /** A draft with only the required paths gets the schema's three defaults. */
  lemma CreateDefaults(kind: string, description: string, coordinates: seq<real>, now: int)
    requires kind != "" && description != ""
    ensures Create(Draft(Some(kind), Some(description), None, Some(coordinates), None, None), now)
            == Success(Occurrence(kind, description, Location(PointKind, coordinates), None, now))
  {
  }
}
