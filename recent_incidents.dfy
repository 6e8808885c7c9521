/** The mobile "recent incidents" screen: the defaulting pass applied to every
    incident the server returns, the two radius filters (around a point picked on
    the map, and around the device's position), the reset, appending a comment to
    the selected incident, and the status badge of an incident card.

    The distance between two points, `parseFloat`, `JSON.parse`, the random id
    suffix and the current time are parameters: the properties proved here hold
    whatever they return. */
module RecentIncidents {
  import opened Wrappers
  import opened JsStrings
  import opened JsValues
  import Sequences

  // ---------------------------------------------------------------------------
  // Normalising one incident
  // ---------------------------------------------------------------------------

  /** `{ latitude: null, longitude: null }`. */
  const NullLocation: JsValue := Obj(map["latitude" := Null, "longitude" := Null])

  /** The fields that receive a default when falsy, with the defaults other than
      the id's and the timestamp's. */
  const Unknown: JsValue := Str("Unknown")
  const NoDescription: JsValue := Str("No description provided")
  const Submitted: JsValue := Str("submitted")
  const NoComments: JsValue := Arr([], map[])

  /** `if (!o.key) o.key = d`. */
  function FieldDefault(o: JsValue, key: string, d: JsValue): (r: JsValue)
    requires IsObject(o)
    ensures IsObject(r)
    ensures Truthy(Get(o, key)) ==> r == o
    ensures Falsy(Get(o, key)) ==> Get(r, key) == d
    ensures forall k | k != key :: Get(r, k) == Get(o, k) && (HasProperty(r, k) <==> HasProperty(o, k))
  {
    if Falsy(Get(o, key)) then Set(o, key, d) else o
  }

  /** `if (!('key' in o)) o.key = null`. */
  function KeyDefault(o: JsValue, key: string): (r: JsValue)
    requires IsObject(o)
    ensures IsObject(r) && HasProperty(r, key)
    ensures HasProperty(o, key) ==> r == o
    ensures !HasProperty(o, key) ==> Get(r, key) == Null
    ensures forall k | k != key :: Get(r, k) == Get(o, k) && (HasProperty(r, k) <==> HasProperty(o, k))
  {
    if HasProperty(o, key) then o else Set(o, key, Null)
  }

  /** The location after the string case: a string is replaced by what
      `JSON.parse` makes of it, or by the null location when parsing throws. */
  function ParsedLocation(loc: JsValue, parse: string -> Option<JsValue>): JsValue {
    if loc.Str? then parse(loc.s).GetOr(NullLocation) else loc
  }

  /** The location step: `None` when the `in` test throws, because the location is
      (or parses to) a value that is not an object. */
  function NormalizeLocation(loc: JsValue, parse: string -> Option<JsValue>): (r: Option<JsValue>)
    ensures r.None? <==> Truthy(loc) && !IsObject(ParsedLocation(loc, parse))
    ensures r.Some? ==> IsObject(r.value) && HasProperty(r.value, "latitude") && HasProperty(r.value, "longitude")
    ensures Falsy(loc) ==> r == Some(NullLocation)
    ensures loc.Str? && parse(loc.s).None? ==> r == Some(NullLocation)
    ensures r.Some? && Truthy(loc) ==> forall k | IsObject(ParsedLocation(loc, parse)) && HasProperty(ParsedLocation(loc, parse), k) ::
      HasProperty(r.value, k) && Get(r.value, k) == Get(ParsedLocation(loc, parse), k)
    ensures r.Some? && Truthy(loc) ==> forall k | k != "latitude" && k != "longitude" ::
      HasProperty(r.value, k) == HasProperty(ParsedLocation(loc, parse), k)
  {
    if Falsy(loc) then Some(NullLocation)
    else
      var l := ParsedLocation(loc, parse);
      if !IsObject(l) then None
      else Some(KeyDefault(KeyDefault(l, "latitude"), "longitude"))
  }

  /** A falsy field is given its default and a truthy one is kept. */
  predicate Defaulted(before: JsValue, after: JsValue, key: string, d: JsValue) {
    && (Truthy(Get(before, key)) ==> Get(after, key) == Get(before, key))
    && (Falsy(Get(before, key)) ==> Get(after, key) == d)
  }

  predicate IsDefaultedField(k: string) {
    k == "id" || k == "location" || k == "incidentType" || k == "description"
    || k == "status" || k == "reported_at" || k == "comments"
  }

  /** An incident as the screen keeps it: an object with a truthy id, type,
      description, status, timestamp and comments, and a location object that has
      both coordinate keys. */
  predicate IsNormalized(v: JsValue) {
    && IsObject(v)
    && Truthy(Get(v, "id"))
    && IsObject(Get(v, "location"))
    && HasProperty(Get(v, "location"), "latitude")
    && HasProperty(Get(v, "location"), "longitude")
    && Truthy(Get(v, "incidentType"))
    && Truthy(Get(v, "description"))
    && Truthy(Get(v, "status"))
    && Truthy(Get(v, "reported_at"))
    && Truthy(Get(v, "comments"))
  }

  /** The body of the `map` callback in `fetchIncidents` for one element, with
      `suffix` standing for the random id suffix and `nowIso` for the current time
      in ISO form. `None` when the callback throws: on a value that is not an object
      (reading a property of `null`/`undefined`, or assigning one to a primitive in
      strict-mode code) and when the location test throws. */
  function Normalize(incident: JsValue, suffix: string, nowIso: string, parse: string -> Option<JsValue>): (r: Option<JsValue>)
    ensures r.None? <==> !IsObject(incident) || NormalizeLocation(Get(incident, "location"), parse).None?
  {
    if !IsObject(incident) then None
    else
      var a := FieldDefault(incident, "id", Str("temp-" + suffix));
      match NormalizeLocation(Get(a, "location"), parse)
      case None => None
      case Some(loc) => Some(OtherDefaults(Set(a, "location", loc), nowIso))
  }

  /** What the defaulting pass makes of an incident it does not throw on: a
      normalised incident whose falsy id, type, description, status, timestamp and
      comments received their defaults, whose truthy ones are kept, whose location
      went through the location step, and whose other properties are untouched. */
  lemma NormalizeSpec(incident: JsValue, suffix: string, nowIso: string, parse: string -> Option<JsValue>)
    requires Normalize(incident, suffix, nowIso, parse).Some? && nowIso != ""
    ensures var r := Normalize(incident, suffix, nowIso, parse).value;
      && IsNormalized(r)
      && Defaulted(incident, r, "id", Str("temp-" + suffix))
      && Get(r, "location") == NormalizeLocation(Get(incident, "location"), parse).value
      && Defaulted(incident, r, "incidentType", Unknown)
      && Defaulted(incident, r, "description", NoDescription)
      && Defaulted(incident, r, "status", Submitted)
      && Defaulted(incident, r, "reported_at", Str(nowIso))
      && Defaulted(incident, r, "comments", NoComments)
      && forall k | !IsDefaultedField(k) :: Get(r, k) == Get(incident, k)
  {
    var a := FieldDefault(incident, "id", Str("temp-" + suffix));
    var loc := NormalizeLocation(Get(incident, "location"), parse).value;
    LocationUnderId(incident, a, suffix);
    var b := Set(a, "location", loc);
    assert Normalize(incident, suffix, nowIso, parse).value == OtherDefaults(b, nowIso);
    PlainDefaults(incident, a, b, loc, nowIso);
  }

  /** The defaulting pass yields a normalised incident whenever it does not throw. */
  lemma NormalizeIsNormalized(incident: JsValue, suffix: string, nowIso: string, parse: string -> Option<JsValue>)
    requires Normalize(incident, suffix, nowIso, parse).Some? && nowIso != ""
    ensures IsNormalized(Normalize(incident, suffix, nowIso, parse).value)
  {
    NormalizeSpec(incident, suffix, nowIso, parse);
  }

  /** Giving the id its default leaves the location alone. */
  lemma LocationUnderId(incident: JsValue, a: JsValue, suffix: string)
    requires IsObject(incident) && a == FieldDefault(incident, "id", Str("temp-" + suffix))
    ensures Get(a, "location") == Get(incident, "location")
    ensures Defaulted(incident, a, "id", Str("temp-" + suffix)) && Truthy(Get(a, "id"))
    ensures forall k | k != "id" :: Get(a, k) == Get(incident, k)
  {
  }

  /** The last five defaults, applied after the id and the location steps. */
  lemma PlainDefaults(incident: JsValue, a: JsValue, b: JsValue, loc: JsValue, nowIso: string)
    requires IsObject(a) && Truthy(Get(a, "id")) && (forall k | k != "id" :: Get(a, k) == Get(incident, k))
    requires IsObject(loc) && HasProperty(loc, "latitude") && HasProperty(loc, "longitude")
    requires b == Set(a, "location", loc) && nowIso != ""
    ensures var r := OtherDefaults(b, nowIso);
      && IsNormalized(r)
      && Get(r, "id") == Get(a, "id")
      && Get(r, "location") == loc
      && Defaulted(incident, r, "incidentType", Unknown)
      && Defaulted(incident, r, "description", NoDescription)
      && Defaulted(incident, r, "status", Submitted)
      && Defaulted(incident, r, "reported_at", Str(nowIso))
      && Defaulted(incident, r, "comments", NoComments)
      && forall k | !IsDefaultedField(k) :: Get(r, k) == Get(incident, k)
  {
    BeforePlainDefaults(incident, a, b, loc);
    DefaultsShape(b, nowIso);
    DefaultsFields(b, nowIso, incident);
    DefaultsOthers(b, nowIso, incident);
  }

  lemma DefaultsShape(b: JsValue, nowIso: string)
    requires IsObject(b) && Truthy(Get(b, "id")) && IsObject(Get(b, "location"))
    requires HasProperty(Get(b, "location"), "latitude") && HasProperty(Get(b, "location"), "longitude")
    requires nowIso != ""
    ensures IsNormalized(OtherDefaults(b, nowIso))
  {
    var r := OtherDefaults(b, nowIso);
    assert "comments"[0] != "location"[0];
    assert Get(r, "id") == Get(b, "id") && Get(r, "location") == Get(b, "location");
    DefaultedIsTruthy(b, r, "incidentType", Unknown);
    DefaultedIsTruthy(b, r, "description", NoDescription);
    DefaultedIsTruthy(b, r, "status", Submitted);
    DefaultedIsTruthy(b, r, "reported_at", Str(nowIso));
    DefaultedIsTruthy(b, r, "comments", NoComments);
  }

  /** A field defaulted to a truthy value is truthy afterwards. */
  lemma DefaultedIsTruthy(before: JsValue, after: JsValue, key: string, d: JsValue)
    requires Defaulted(before, after, key, d) && Truthy(d)
    ensures Truthy(Get(after, key))
  {
  }

  lemma DefaultsFields(b: JsValue, nowIso: string, incident: JsValue)
    requires IsObject(b)
    requires forall k | k != "id" && k != "location" :: Get(b, k) == Get(incident, k)
    ensures var r := OtherDefaults(b, nowIso);
      && Defaulted(incident, r, "incidentType", Unknown)
      && Defaulted(incident, r, "description", NoDescription)
      && Defaulted(incident, r, "status", Submitted)
      && Defaulted(incident, r, "reported_at", Str(nowIso))
      && Defaulted(incident, r, "comments", NoComments)
  {
    assert "comments"[0] != "location"[0];
    assert Get(b, "incidentType") == Get(incident, "incidentType");
    assert Get(b, "description") == Get(incident, "description");
    assert Get(b, "status") == Get(incident, "status");
    assert Get(b, "reported_at") == Get(incident, "reported_at");
    assert Get(b, "comments") == Get(incident, "comments");
  }

  lemma DefaultsOthers(b: JsValue, nowIso: string, incident: JsValue)
    requires IsObject(b)
    requires forall k | k != "id" && k != "location" :: Get(b, k) == Get(incident, k)
    ensures var r := OtherDefaults(b, nowIso);
      && Get(r, "id") == Get(b, "id") && Get(r, "location") == Get(b, "location")
      && forall k | !IsDefaultedField(k) :: Get(r, k) == Get(incident, k)
  {
  }

  /** Before the last five defaults the incident differs from the original only in
      its id and its location. */
  lemma BeforePlainDefaults(incident: JsValue, a: JsValue, b: JsValue, loc: JsValue)
    requires IsObject(a) && (forall k | k != "id" :: Get(a, k) == Get(incident, k))
    requires b == Set(a, "location", loc)
    ensures IsObject(b) && Get(b, "id") == Get(a, "id") && Get(b, "location") == loc
    ensures forall k | k != "id" && k != "location" :: Get(b, k) == Get(incident, k)
    ensures Get(b, "incidentType") == Get(incident, "incidentType")
    ensures Get(b, "description") == Get(incident, "description")
    ensures Get(b, "status") == Get(incident, "status")
    ensures Get(b, "reported_at") == Get(incident, "reported_at")
    ensures Get(b, "comments") == Get(incident, "comments")
  {
  }

  /** The five plain defaults, applied after the id and the location. */
  function OtherDefaults(b: JsValue, nowIso: string): (r: JsValue)
    requires IsObject(b)
    ensures IsObject(r)
    ensures Defaulted(b, r, "incidentType", Unknown)
    ensures Defaulted(b, r, "description", NoDescription)
    ensures Defaulted(b, r, "status", Submitted)
    ensures Defaulted(b, r, "reported_at", Str(nowIso))
    ensures Defaulted(b, r, "comments", NoComments)
    ensures forall k | k != "incidentType" && k != "description" && k != "status" && k != "reported_at" && k != "comments" ::
      Get(r, k) == Get(b, k) && (HasProperty(r, k) <==> HasProperty(b, k))
  {
    var d := TextDefaults(b);
    var e := FieldDefault(d, "reported_at", Str(nowIso));
    FieldDefault(e, "comments", NoComments)
  }

  /** The type, description and status defaults. */
  function TextDefaults(b: JsValue): (r: JsValue)
    requires IsObject(b)
    ensures IsObject(r)
    ensures Defaulted(b, r, "incidentType", Unknown)
    ensures Defaulted(b, r, "description", NoDescription)
    ensures Defaulted(b, r, "status", Submitted)
    ensures forall k | k != "incidentType" && k != "description" && k != "status" ::
      Get(r, k) == Get(b, k) && (HasProperty(r, k) <==> HasProperty(b, k))
  {
    var c := FieldDefault(b, "incidentType", Unknown);
    var d := FieldDefault(c, "description", NoDescription);
    FieldDefault(d, "status", Submitted)
  }

  /** A normalised incident is left exactly as it is, whatever the oracles return:
      the pass is idempotent. */
  lemma NormalizeIdempotent(v: JsValue, suffix: string, nowIso: string, parse: string -> Option<JsValue>)
    requires IsNormalized(v)
    ensures Normalize(v, suffix, nowIso, parse) == Some(v)
  {
    var loc := Get(v, "location");
    assert NormalizeLocation(loc, parse) == Some(loc);
    SetSameValue(v, "location");
  }

  /** The defaulting pass never throws on an object whose location is falsy, an
      object, or a string that `JSON.parse` rejects or turns into an object. */
  lemma NormalizeSucceeds(incident: JsValue, suffix: string, nowIso: string, parse: string -> Option<JsValue>)
    requires IsObject(incident)
    requires var loc := Get(incident, "location");
      Falsy(loc) || IsObject(loc) || (loc.Str? && (parse(loc.s).None? || IsObject(parse(loc.s).value)))
    ensures Normalize(incident, suffix, nowIso, parse).Some?
  {
  }

  /** The location text `"5"` (or `"null"`) parses to a value that is not an object,
      so the `in` test throws. */
  lemma NonObjectLocationThrows(incident: JsValue, suffix: string, nowIso: string, parse: string -> Option<JsValue>)
    requires IsObject(incident) && Get(incident, "location") == Str("5")
    requires parse("5") == Some(Num(Finite(5.0)))
    ensures Normalize(incident, suffix, nowIso, parse).None?
  {
    assert ParsedLocation(Str("5"), parse) == Num(Finite(5.0));
    assert NormalizeLocation(Str("5"), parse).None?;
  }

  /** The location step as evidently intended: a location that is not an object
      (nor a string parsing to one) becomes the null location instead of
      throwing, and every other location is normalised as the code does. */
  function NormalizeLocationTotal(loc: JsValue, parse: string -> Option<JsValue>): (r: JsValue)
    ensures IsObject(r) && HasProperty(r, "latitude") && HasProperty(r, "longitude")
    ensures NormalizeLocation(loc, parse).Some? ==> r == NormalizeLocation(loc, parse).value
    ensures NormalizeLocation(loc, parse).None? ==> r == NullLocation
  {
    NormalizeLocation(loc, parse).GetOr(NullLocation)
  }

  /** The location text `"5"` gets the null location from the intended step. */
  lemma NonObjectLocationDefaults(parse: string -> Option<JsValue>)
    requires parse("5") == Some(Num(Finite(5.0)))
    ensures NormalizeLocationTotal(Str("5"), parse) == NullLocation
  {
    assert ParsedLocation(Str("5"), parse) == Num(Finite(5.0));
  }

  // ---------------------------------------------------------------------------
  // Radius filters
  // ---------------------------------------------------------------------------

  datatype Coordinate = Coordinate(latitude: real, longitude: real)

  /** The `filter` callback of both radius filters: the incident has a location
      whose coordinates are present (neither `null` nor `undefined`), and the
      distance from `origin` to the parsed coordinates is at most `radius`. No
      range check is made on the coordinates. */
  predicate WithinRadius(incident: JsValue, origin: Coordinate, radius: real,
                         parseFloat: JsValue -> Number, distance: (real, real, Number, Number) -> Number)
  {
    var loc := Get(incident, "location");
    var lat, lng := Get(loc, "latitude"), Get(loc, "longitude");
    && Truthy(loc) && !IsNullish(lat) && !IsNullish(lng)
    && AtMost(distance(origin.latitude, origin.longitude, parseFloat(lat), parseFloat(lng)), radius)
  }

  function Within(origin: Coordinate, radius: real, parseFloat: JsValue -> Number,
                  distance: (real, real, Number, Number) -> Number): JsValue -> bool
  {
    x => WithinRadius(x, origin, radius, parseFloat, distance)
  }

  /** `source.filter(...)` with the radius test. */
  function Nearby(source: seq<JsValue>, origin: Coordinate, radius: real, parseFloat: JsValue -> Number,
                  distance: (real, real, Number, Number) -> Number): seq<JsValue>
  {
    Sequences.Filter(Within(origin, radius, parseFloat, distance), source)
  }

  /** The filtered list is an order-preserving subsequence of its source, holding
      exactly the source's incidents that pass the radius test; each kept incident
      has both coordinates present and lies within the radius. */
  lemma NearbySpec(source: seq<JsValue>, origin: Coordinate, radius: real, parseFloat: JsValue -> Number,
                   distance: (real, real, Number, Number) -> Number)
    ensures var r := Nearby(source, origin, radius, parseFloat, distance);
      && Sequences.IsSubsequence(r, source)
      && (forall x | x in r :: x in source && WithinRadius(x, origin, radius, parseFloat, distance))
      && (forall x | x in source && WithinRadius(x, origin, radius, parseFloat, distance) :: x in r)
    ensures var r := Nearby(source, origin, radius, parseFloat, distance);
      forall x :: multiset(r)[x] == if WithinRadius(x, origin, radius, parseFloat, distance) then multiset(source)[x] else 0
    ensures forall x | x in Nearby(source, origin, radius, parseFloat, distance) ::
      var loc := Get(x, "location");
      !IsNullish(Get(loc, "latitude")) && !IsNullish(Get(loc, "longitude"))
  {
    Sequences.FilterIsSubsequence(Within(origin, radius, parseFloat, distance), source);
    Sequences.FilterMultiset(Within(origin, radius, parseFloat, distance), source);
  }

  /** Radius monotonicity: whatever a radius keeps, a larger radius keeps too, in
      the same order. */
  lemma NearbyMonotone(source: seq<JsValue>, origin: Coordinate, r1: real, r2: real, parseFloat: JsValue -> Number,
                       distance: (real, real, Number, Number) -> Number)
    requires r1 <= r2
    ensures Sequences.IsSubsequence(Nearby(source, origin, r1, parseFloat, distance), Nearby(source, origin, r2, parseFloat, distance))
  {
    var f, g := Within(origin, r1, parseFloat, distance), Within(origin, r2, parseFloat, distance);
    forall x | x in source ensures f(x) ==> g(x) {
      if f(x) {
        var loc := Get(x, "location");
        AtMostMonotone(distance(origin.latitude, origin.longitude, parseFloat(Get(loc, "latitude")), parseFloat(Get(loc, "longitude"))), r1, r2);
      }
    }
    Sequences.FilterWeakerTest(f, g, source);
  }

  /** An incident whose latitude is far outside [-90, 90] is still kept when the
      distance comes out within the radius: the filters make no range check. */
  lemma OutOfRangeIsKept(parseFloat: JsValue -> Number, distance: (real, real, Number, Number) -> Number)
    requires parseFloat(Num(Finite(1000.0))) == Finite(1000.0)
    requires distance(0.0, 0.0, Finite(1000.0), Finite(0.0)) == Finite(0.0)
    requires parseFloat(Num(Finite(0.0))) == Finite(0.0)
    ensures var incident := Obj(map["id" := Num(Finite(1.0)),
                                    "location" := Obj(map["latitude" := Num(Finite(1000.0)), "longitude" := Num(Finite(0.0))])]);
      Nearby([incident], Coordinate(0.0, 0.0), 10.0, parseFloat, distance) == [incident]
  {
  }

  /** Parsed coordinates inside [-90, 90] and [-180, 180]. */
  predicate InRange(lat: Number, lng: Number) {
    lat.Finite? && lng.Finite? && -90.0 <= lat.value <= 90.0 && -180.0 <= lng.value <= 180.0
  }

  /** The radius test as evidently intended: the coordinates are range-checked
      before the distance is compared. */
  predicate WithinRadiusChecked(incident: JsValue, origin: Coordinate, radius: real,
                                parseFloat: JsValue -> Number, distance: (real, real, Number, Number) -> Number)
  {
    var loc := Get(incident, "location");
    && WithinRadius(incident, origin, radius, parseFloat, distance)
    && InRange(parseFloat(Get(loc, "latitude")), parseFloat(Get(loc, "longitude")))
  }

  function NearbyChecked(source: seq<JsValue>, origin: Coordinate, radius: real, parseFloat: JsValue -> Number,
                         distance: (real, real, Number, Number) -> Number): (r: seq<JsValue>)
    ensures forall x | x in r :: x in source && WithinRadiusChecked(x, origin, radius, parseFloat, distance)
    ensures forall x | x in source && WithinRadiusChecked(x, origin, radius, parseFloat, distance) :: x in r
  {
    Sequences.Filter(x => WithinRadiusChecked(x, origin, radius, parseFloat, distance), source)
  }

  /** The range-checked filter keeps, in order, part of what the code's filter
      keeps, and only incidents with coordinates in range; the latitude-1000
      incident the code keeps is dropped. */
  lemma NearbyCheckedSpec(source: seq<JsValue>, origin: Coordinate, radius: real, parseFloat: JsValue -> Number,
                          distance: (real, real, Number, Number) -> Number)
    ensures Sequences.IsSubsequence(NearbyChecked(source, origin, radius, parseFloat, distance),
                                    Nearby(source, origin, radius, parseFloat, distance))
    ensures forall x | x in NearbyChecked(source, origin, radius, parseFloat, distance) ::
      var loc := Get(x, "location");
      InRange(parseFloat(Get(loc, "latitude")), parseFloat(Get(loc, "longitude")))
  {
    Sequences.FilterWeakerTest(x => WithinRadiusChecked(x, origin, radius, parseFloat, distance),
                               Within(origin, radius, parseFloat, distance), source);
  }

  /** The incident of `OutOfRangeIsKept` is not kept by the range-checked
      filter. */
  lemma OutOfRangeIsDropped(parseFloat: JsValue -> Number, distance: (real, real, Number, Number) -> Number)
    requires parseFloat(Num(Finite(1000.0))) == Finite(1000.0)
    ensures var incident := Obj(map["id" := Num(Finite(1.0)),
                                    "location" := Obj(map["latitude" := Num(Finite(1000.0)), "longitude" := Num(Finite(0.0))])]);
      NearbyChecked([incident], Coordinate(0.0, 0.0), 10.0, parseFloat, distance) == []
  {
    var incident := Obj(map["id" := Num(Finite(1.0)),
                            "location" := Obj(map["latitude" := Num(Finite(1000.0)), "longitude" := Num(Finite(0.0))])]);
    assert Get(Get(incident, "location"), "latitude") == Num(Finite(1000.0));
    assert !WithinRadiusChecked(incident, Coordinate(0.0, 0.0), 10.0, parseFloat, distance);
  }

  // ---------------------------------------------------------------------------
  // Appending a comment
  // ---------------------------------------------------------------------------

  /** `[...(c || [])]`: an array's elements, a string's characters, nothing for a
      falsy value; `None` when the spread throws because the value is not
      iterable. */
  function SpreadComments(c: JsValue): (r: Option<seq<JsValue>>)
    ensures Falsy(c) ==> r == Some([])
    ensures c.Arr? ==> r == Some(c.elems)
    ensures r.None? <==> Truthy(c) && !c.Arr? && !c.Str?
  {
    if Falsy(c) then Some([])
    else match c
      case Arr(elems, _) => Some(elems)
      case Str(s) => Some(Characters(s))
      case _ => None
  }

  /** The one-character strings a string spreads into. */
  function Characters(s: string): (r: seq<JsValue>)
    ensures |r| == |s| && forall i | 0 <= i < |s| :: r[i] == Str([s[i]])
  {
    if s == [] then [] else [Str([s[0]])] + Characters(s[1..])
  }

  /** `{ ...inc, comments: [...(inc.comments || []), comment] }`. */
  function WithComment(inc: JsValue, comment: JsValue): (r: Option<JsValue>)
    requires IsObject(inc)
    ensures r.Some? <==> SpreadComments(Get(inc, "comments")).Some?
    ensures r.Some? ==> Get(r.value, "comments") == Arr(SpreadComments(Get(inc, "comments")).value + [comment], map[])
    ensures r.Some? ==> r.value.Obj? && forall k | k != "comments" :: Get(r.value, k) == Get(inc, k)
  {
    match SpreadComments(Get(inc, "comments"))
    case None => None
    case Some(cs) => Some(Obj(Props(inc)["comments" := Arr(cs + [comment], map[])]))
  }

  /** A normalised incident stays normalised when a comment is appended. */
  lemma WithCommentKeepsNormalized(inc: JsValue, comment: JsValue)
    requires IsNormalized(inc) && WithComment(inc, comment).Some?
    ensures IsNormalized(WithComment(inc, comment).value)
  {
  }

  /** What the `map` callback of `handleAddComment` returns for one incident: a
      copy with the comment appended when its id is `===` to `id`, the incident
      itself otherwise; `None` when the copy's spread throws. */
  function CommentOne(inc: JsValue, id: JsValue, comment: JsValue): Option<JsValue>
    requires IsObject(inc)
  {
    if StrictEquals(Get(inc, "id"), id) then WithComment(inc, comment) else Some(inc)
  }

  /** Every incident with the given id has a comment list that can be spread. */
  predicate CanAddComment(xs: seq<JsValue>, id: JsValue, comment: JsValue)
    requires forall x | x in xs :: IsObject(x)
  {
    forall i | 0 <= i < |xs| :: CommentOne(xs[i], id, comment).Some?
  }

  /** The `map` in `handleAddComment`: the incidents whose id is `===` to `id` get
      the comment and the others stay as they are; `None` when one of the comment
      lists to extend cannot be spread. */
  function AddComment(xs: seq<JsValue>, id: JsValue, comment: JsValue): (r: Option<seq<JsValue>>)
    requires forall x | x in xs :: IsObject(x)
    ensures r.Some? <==> CanAddComment(xs, id, comment)
    ensures r.Some? ==> |r.value| == |xs|
    ensures r.Some? ==> forall i | 0 <= i < |xs| :: Some(r.value[i]) == CommentOne(xs[i], id, comment)
    decreases |xs|
  {
    if xs == [] then Some([])
    else
      assert forall x | x in xs[1..] :: x in xs;
      var head := CommentOne(xs[0], id, comment);
      var tail := AddComment(xs[1..], id, comment);
      assert CanAddComment(xs, id, comment) <==> head.Some? && CanAddComment(xs[1..], id, comment) by {
        assert forall i | 1 <= i < |xs| :: xs[i] == xs[1..][i - 1];
      }
      if head.None? || tail.None? then None
      else
        var r := [head.value] + tail.value;
        assert forall i | 0 <= i < |xs| :: Some(r[i]) == CommentOne(xs[i], id, comment) by {
          forall i | 0 <= i < |xs| ensures Some(r[i]) == CommentOne(xs[i], id, comment) {
            if i > 0 {
              assert xs[i] == xs[1..][i - 1] && r[i] == tail.value[i - 1];
            }
          }
        }
        Some(r)
  }

  // ---------------------------------------------------------------------------
  // The incident card's status badge
  // ---------------------------------------------------------------------------

  /** The badge text of `IncidentCard`. */
  function StatusBadge(status: JsValue): (badge: string)
    ensures badge == "Resolved" <==> status == Str("Resolved")
    ensures badge == "In Progress" <==> status == Str("processing")
    ensures badge == "Submitted" <==> status != Str("Resolved") && status != Str("processing")
  {
    if status == Str("Resolved") then "Resolved"
    else if status == Str("processing") then "In Progress"
    else "Submitted"
  }

  /** An incident that arrived without a status shows the "Submitted" badge. */
  lemma DefaultStatusBadge(incident: JsValue, suffix: string, nowIso: string, parse: string -> Option<JsValue>)
    requires Normalize(incident, suffix, nowIso, parse).Some? && Falsy(Get(incident, "status"))
    ensures StatusBadge(Get(Normalize(incident, suffix, nowIso, parse).value, "status")) == "Submitted"
  {
  }

  // ---------------------------------------------------------------------------
  // The screen
  // ---------------------------------------------------------------------------

  const FetchFailed := "Failed to load incidents. Please check your connection and try again."
  const BadFormat := "No incidents found or invalid data format."
  const NoneNearby := "No incidents found within 10km of your location."
  const PermissionRequired := "Location permission is required to find nearby incidents."
  const PermissionFailed := "Failed to request location permissions."
  const PositionFailed := "Failed to get your current location. Please try again."
  const LocationUnavailable := "Unable to access your location. Please check your device settings."

  /** Where the map opens when the device's position is not available. */
  const DefaultRegion := Coordinate(22.9734, 78.6569)

  function NoneNearPoint(radius: nat): string {
    "No incidents found within " + NatToString(radius) + "km of selected location."
  }

  /** The `map` over the response array in `fetchIncidents`: every element goes
      through the defaulting pass in order, and the first element it throws on
      ends the pass. `suffix(i)` is the random suffix drawn for element `i`. */
  method NormalizeEach(elems: seq<JsValue>, suffix: nat -> string, nowIso: string, parse: string -> Option<JsValue>)
    returns (r: Option<seq<JsValue>>)
    requires nowIso != ""
    ensures r.Some? <==> forall i | 0 <= i < |elems| :: Normalize(elems[i], suffix(i), nowIso, parse).Some?
    ensures r.Some? ==> |r.value| == |elems| && forall i | 0 <= i < |elems| :: Some(r.value[i]) == Normalize(elems[i], suffix(i), nowIso, parse)
    ensures r.Some? ==> forall x | x in r.value :: IsNormalized(x)
  {
    var validated: seq<JsValue> := [];
    var i := 0;
    while i < |elems|
      invariant 0 <= i <= |elems|
      invariant |validated| == i
      invariant forall j | 0 <= j < i :: Some(validated[j]) == Normalize(elems[j], suffix(j), nowIso, parse)
      invariant forall j | 0 <= j < i :: IsNormalized(validated[j])
    {
      var n := Normalize(elems[i], suffix(i), nowIso, parse);
      if n.None? {
        return None;
      }
      NormalizeIsNormalized(elems[i], suffix(i), nowIso, parse);
      validated := validated + [n.value];
      i := i + 1;
    }
    return Some(validated);
  }

  class RecentIncidentsScreen {
    var incidents: seq<JsValue>
    var allIncidents: seq<JsValue>
    var loading: bool
    var error: Option<string>
    var selectedIncident: Option<JsValue>
    var currentLocation: Option<Coordinate>
    var permissionStatus: Option<string>
    var selectedMapLocation: Option<Coordinate>
    /** The screen never changes its map radius (in km). */
    const mapRadius: nat

    /** Every incident the screen holds has been through the defaulting pass. */
    ghost predicate Valid()
      reads this
    {
      && mapRadius == 10
      && (forall x | x in incidents :: IsNormalized(x))
      && (forall x | x in allIncidents :: IsNormalized(x))
      && (selectedIncident.Some? ==> IsNormalized(selectedIncident.value))
    }

    constructor()
      ensures Valid()
      ensures incidents == [] && allIncidents == [] && loading && error.None?
      ensures selectedIncident.None? && currentLocation.None? && permissionStatus.None? && selectedMapLocation.None?
    {
      incidents, allIncidents := [], [];
      loading, error := true, None;
      selectedIncident, currentLocation, permissionStatus, selectedMapLocation := None, None, None, None;
      mapRadius := 10;
    }

    /** The mount effect that asks for the location permission: `request` is the
        permission status (`None` when asking throws) and `position` the device's
        position (`None` when reading it throws). */
    method RequestLocation(request: Option<string>, position: Option<Coordinate>)
      requires Valid()
      modifies this
      ensures Valid()
      ensures permissionStatus == (if request.Some? then request else old(permissionStatus))
      ensures request == Some("granted") && position.Some? ==> currentLocation == position && error == old(error)
      ensures request.Some? && request != Some("granted") ==> currentLocation == Some(DefaultRegion) && error == old(error)
      ensures request.None? || (request == Some("granted") && position.None?) ==>
        currentLocation == Some(DefaultRegion) && error == Some(LocationUnavailable)
      ensures incidents == old(incidents) && allIncidents == old(allIncidents) && loading == old(loading)
      ensures selectedIncident == old(selectedIncident) && selectedMapLocation == old(selectedMapLocation)
    {
      if request.None? {
        currentLocation := Some(DefaultRegion);
        error := Some(LocationUnavailable);
        return;
      }
      permissionStatus := request;
      if request.value == "granted" {
        if position.None? {
          currentLocation := Some(DefaultRegion);
          error := Some(LocationUnavailable);
        } else {
          currentLocation := position;
        }
      } else {
        currentLocation := Some(DefaultRegion);
      }
    }

    /** `fetchIncidents`: `response` is the response body (`None` when the request
        throws), `suffix(i)` the random id suffix drawn for element `i`. A body that
        is not an array empties the list; an element the defaulting pass throws on
        empties the list with the failure message. `allIncidents` changes only on
        success. */
    method FetchIncidents(response: Option<JsValue>, suffix: nat -> string, nowIso: string, parse: string -> Option<JsValue>)
      requires Valid() && nowIso != ""
      modifies this
      ensures Valid()
      ensures !loading
      ensures response.Some? && response.value.Arr? &&
              (forall i | 0 <= i < |response.value.elems| :: Normalize(response.value.elems[i], suffix(i), nowIso, parse).Some?) ==>
        && |incidents| == |response.value.elems|
        && (forall i | 0 <= i < |incidents| :: Some(incidents[i]) == Normalize(response.value.elems[i], suffix(i), nowIso, parse))
        && allIncidents == incidents && error.None?
      ensures response.Some? && response.value.Arr? &&
              (exists i | 0 <= i < |response.value.elems| :: Normalize(response.value.elems[i], suffix(i), nowIso, parse).None?) ==>
        incidents == [] && allIncidents == old(allIncidents) && error == Some(FetchFailed)
      ensures response.Some? && !response.value.Arr? ==>
        incidents == [] && allIncidents == old(allIncidents) && error == Some(BadFormat)
      ensures response.None? ==> incidents == [] && allIncidents == old(allIncidents) && error == Some(FetchFailed)
      ensures selectedIncident == old(selectedIncident) && selectedMapLocation == old(selectedMapLocation)
      ensures currentLocation == old(currentLocation) && permissionStatus == old(permissionStatus)
    {
      loading := true;
      error := None;
      if response.None? {
        incidents := [];
        error := Some(FetchFailed);
      } else if !response.value.Arr? {
        incidents := [];
        error := Some(BadFormat);
      } else {
        var validated := NormalizeEach(response.value.elems, suffix, nowIso, parse);
        if validated.None? {
          incidents := [];
          error := Some(FetchFailed);
        } else {
          incidents := validated.value;
          allIncidents := validated.value;
        }
      }
      loading := false;
    }

    /** `filterIncidentsByMapPoint`: all incidents are filtered around the point;
        an empty result keeps the current list and only reports. */
    method FilterByMapPoint(point: Coordinate, parseFloat: JsValue -> Number, distance: (real, real, Number, Number) -> Number)
      requires Valid()
      modifies this
      ensures Valid()
      ensures var filtered := Nearby(old(allIncidents), point, mapRadius as real, parseFloat, distance);
        if filtered != [] then incidents == filtered && error.None?
        else incidents == old(incidents) && error == Some(NoneNearPoint(mapRadius))
      ensures allIncidents == old(allIncidents) && loading == old(loading)
      ensures selectedIncident == old(selectedIncident) && selectedMapLocation == old(selectedMapLocation)
      ensures currentLocation == old(currentLocation) && permissionStatus == old(permissionStatus)
    {
      error := None;
      var filtered := Nearby(allIncidents, point, mapRadius as real, parseFloat, distance);
      NearbySpec(allIncidents, point, mapRadius as real, parseFloat, distance);
      if |filtered| > 0 {
        incidents := filtered;
      } else {
        error := Some(NoneNearPoint(mapRadius));
      }
    }

    /** `handleMapPress`: the pressed point is remembered and the incidents are
        filtered around it. */
    method HandleMapPress(point: Coordinate, parseFloat: JsValue -> Number, distance: (real, real, Number, Number) -> Number)
      requires Valid()
      modifies this
      ensures Valid()
      ensures selectedMapLocation == Some(point)
      ensures var filtered := Nearby(old(allIncidents), point, mapRadius as real, parseFloat, distance);
        if filtered != [] then incidents == filtered && error.None?
        else incidents == old(incidents) && error == Some(NoneNearPoint(mapRadius))
      ensures allIncidents == old(allIncidents) && loading == old(loading) && selectedIncident == old(selectedIncident)
      ensures currentLocation == old(currentLocation) && permissionStatus == old(permissionStatus)
    {
      selectedMapLocation := Some(point);
      FilterByMapPoint(point, parseFloat, distance);
    }

    /** `filterIncidentsByLocation`: when the permission is not yet granted it is
        asked for again (`request`, `None` when asking throws); then the position is
        read (`position`, `None` when reading throws) and the current list is
        filtered within 10 km of it. */
    method FilterByLocation(request: Option<string>, position: Option<Coordinate>,
                            parseFloat: JsValue -> Number, distance: (real, real, Number, Number) -> Number)
      requires Valid()
      modifies this
      ensures Valid()
      ensures allIncidents == old(allIncidents) && selectedIncident == old(selectedIncident)
      ensures selectedMapLocation == old(selectedMapLocation)
      ensures old(permissionStatus) != Some("granted") && request.None? ==>
        error == Some(PermissionFailed) && incidents == old(incidents) && loading == old(loading)
        && permissionStatus == old(permissionStatus) && currentLocation == old(currentLocation)
      ensures old(permissionStatus) != Some("granted") && request.Some? && request != Some("granted") ==>
        error == Some(PermissionRequired) && incidents == old(incidents) && loading == old(loading)
        && permissionStatus == old(permissionStatus) && currentLocation == old(currentLocation)
      ensures old(permissionStatus) == Some("granted") || request == Some("granted") ==>
        && permissionStatus == Some("granted") && !loading
        && (position.None? ==> error == Some(PositionFailed) && incidents == old(incidents) && currentLocation == old(currentLocation))
        && (position.Some? ==> (currentLocation == position &&
             var filtered := Nearby(old(incidents), position.value, 10.0, parseFloat, distance);
             if filtered != [] then incidents == filtered && error.None?
             else incidents == old(incidents) && error == Some(NoneNearby)))
    {
      error := None;
      if permissionStatus != Some("granted") {
        if request.None? {
          error := Some(PermissionFailed);
          return;
        }
        if request.value != "granted" {
          error := Some(PermissionRequired);
          return;
        }
        permissionStatus := request;
      }
      loading := true;
      if position.None? {
        error := Some(PositionFailed);
      } else {
        currentLocation := position;
        var filtered := Nearby(incidents, position.value, 10.0, parseFloat, distance);
        if |filtered| > 0 {
          incidents := filtered;
        } else {
          error := Some(NoneNearby);
        }
      }
      loading := false;
    }

    /** `resetFilters`: the full list is back and the error and the map point are
        cleared. */
    method ResetFilters()
      requires Valid()
      modifies this
      ensures Valid()
      ensures incidents == allIncidents == old(allIncidents)
      ensures error.None? && selectedMapLocation.None?
      ensures loading == old(loading) && selectedIncident == old(selectedIncident)
      ensures currentLocation == old(currentLocation) && permissionStatus == old(permissionStatus)
    {
      error := None;
      selectedMapLocation := None;
      incidents := allIncidents;
    }

    /** Pressing "View Comments" on a card of the list. */
    method SelectIncident(i: nat)
      requires Valid() && i < |incidents|
      modifies this
      ensures Valid()
      ensures selectedIncident == Some(old(incidents)[i])
      ensures incidents == old(incidents) && allIncidents == old(allIncidents) && error == old(error)
      ensures loading == old(loading) && selectedMapLocation == old(selectedMapLocation)
      ensures currentLocation == old(currentLocation) && permissionStatus == old(permissionStatus)
    {
      selectedIncident := Some(incidents[i]);
    }

    /** `handleAddComment`, reachable only from the comments panel of a selected
        incident: the comment is appended to every listed incident with the
        selected id and to the selected incident. When a comment list involved is
        not iterable the spread throws inside a state updater and the screen
        crashes: `crashed` is then true, and the fields are left as they were
        because nothing after the crash can be observed. */
    method HandleAddComment(comment: JsValue) returns (crashed: bool)
      requires Valid() && selectedIncident.Some?
      modifies this
      ensures Valid()
      ensures var id := Get(old(selectedIncident).value, "id");
        !crashed <==> AddComment(old(incidents), id, comment).Some? && WithComment(old(selectedIncident).value, comment).Some?
      ensures !crashed ==> (Some(incidents) == AddComment(old(incidents), Get(old(selectedIncident).value, "id"), comment)
                            && selectedIncident == WithComment(old(selectedIncident).value, comment))
      ensures crashed ==> incidents == old(incidents) && selectedIncident == old(selectedIncident)
      ensures allIncidents == old(allIncidents) && error == old(error) && loading == old(loading)
      ensures selectedMapLocation == old(selectedMapLocation)
      ensures currentLocation == old(currentLocation) && permissionStatus == old(permissionStatus)
    {
      var sel := selectedIncident.value;
      var updated := AddComment(incidents, Get(sel, "id"), comment);
      var newSel := WithComment(sel, comment);
      if updated.None? || newSel.None? {
        return true;
      }
      forall x | x in updated.value ensures IsNormalized(x) {
        var i :| 0 <= i < |updated.value| && updated.value[i] == x;
        assert incidents[i] in incidents;
        if StrictEquals(Get(incidents[i], "id"), Get(sel, "id")) {
          WithCommentKeepsNormalized(incidents[i], comment);
        }
      }
      WithCommentKeepsNormalized(sel, comment);
      incidents := updated.value;
      selectedIncident := newSel;
      return false;
    }
  }
}
