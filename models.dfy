/**
 * `Event` and `EventLocation` behaviour: event validation, the date-prefixed
 * detail route, the VEVENT component of an event (section 3.6.1 of RFC 5545),
 * and the validation and geocoding of a location.
 */
module Models {
  import opened Wrappers
  import opened Chrono
  import opened Text
  import opened Records

  // ---------------------------------------------------------------- Event.clean

  /** The one error `Event.clean` raises ("Start must be sooner than end."). */
  datatype EventError = StartAfterEnd

  /**
   * `Event.clean`: the start must not be later than a given end. An event passes
   * exactly when it has no end or starts no later than it ends (an equal start
   * and end pass); otherwise it raises the one error.
   */
  function CleanEvent(e: Event): (r: Outcome<EventError>)
    ensures r == Pass <==> e.end.None? || e.start == e.end.value || Before(e.start, e.end.value)
    ensures r.Fail? ==> r.error == StartAfterEnd
  {
    if e.end.Some? then
      BeforeIsStrictTotalOrder(e.start, e.end.value, e.start);
      if Before(e.end.value, e.start) then Fail(StartAfterEnd) else Pass
    else Pass
  }

  // ---------------------------------------------------------------- get_absolute_url

  /** A named URL pattern with its keyword arguments: what `reverse` is given. */
  datatype Route = Route(name: string, kwargs: map<string, string>)

  /** The date granularities `EVENT_URLS_DATE_FORMAT` may name, least granular first. */
  const DateParts: seq<string> := ["year", "month", "day"]

  function PartValue(d: DateTime, part: string): nat {
    if part == "year" then d.year else if part == "month" then d.month else d.day
  }

  /** The slug plus the first `n` date parts of the publish date, zero-padded. */
  function DateKwargs(e: Event, n: nat): map<string, string>
    requires n <= |DateParts|
  {
    if n == 0 then map["slug" := e.slug]
    else DateKwargs(e, n - 1)[DateParts[n - 1] := Padded(PartValue(e.publishDate, DateParts[n - 1]))]
  }

  /** The kwargs hold the slug and exactly the first `n` parts, each padded and parsing back. */
  lemma {:induction false} DateKwargsContents(e: Event, n: nat)
    requires n <= |DateParts|
    ensures DateKwargs(e, n).Keys == {"slug"} + set p | p in DateParts[..n]
    ensures DateKwargs(e, n)["slug"] == e.slug
    ensures forall p :: p in DateParts[..n] ==>
              var v := DateKwargs(e, n)[p];
              AllDigits(v) && |v| >= 2 && ParseNat(v) == PartValue(e.publishDate, p)
  {
    if n > 0 {
      DateKwargsContents(e, n - 1);
      assert DateParts[..n] == DateParts[..n - 1] + [DateParts[n - 1]];
      PaddedRoundTrip(PartValue(e.publishDate, DateParts[n - 1]));
    }
  }

  /** How many date parts the format asks for: up to and including it, or none. */
  function Depth(fmt: string): nat {
    if fmt == DateParts[0] then 1 else if fmt == DateParts[1] then 2
    else if fmt == DateParts[2] then 3 else 0
  }

  /** The route `get_absolute_url` reverses, as a function of the event and the setting. */
  function EventRoute(e: Event, fmt: string): Route {
    if fmt in DateParts then Route("event_detail_" + fmt, DateKwargs(e, Depth(fmt)))
    else Route("event_detail", map["slug" := e.slug])
  }

  /** `Event.get_absolute_url` up to `reverse`: loops over the date parts and stops after `fmt`. */
  method GetAbsoluteUrl(e: Event, fmt: string) returns (route: Route)
    ensures route == EventRoute(e, fmt)
  {
    var urlName := "event_detail";
    var kwargs := map["slug" := e.slug];
    if fmt in DateParts {
      urlName := "event_detail_" + fmt;
      var i := 0;
      while i < |DateParts|
        invariant 0 <= i <= |DateParts|
        invariant forall j :: 0 <= j < i ==> DateParts[j] != fmt
        invariant kwargs == DateKwargs(e, i)
      {
        var part := DateParts[i];
        var value := NatToString(PartValue(e.publishDate, part));
        if |value| == 1 {
          value := "0" + value;
        }
        kwargs := kwargs[part := value];
        i := i + 1;
        if part == fmt {
          break;
        }
      }
    }
    route := Route(urlName, kwargs);
  }

  /** Without a date format the route is the plain slug route. */
  lemma RouteWithoutDateFormat(e: Event, fmt: string)
    requires fmt !in DateParts
    ensures EventRoute(e, fmt) == Route("event_detail", map["slug" := e.slug])
  {
  }

  /**
   * With a date format, the route names it and carries the slug and exactly the
   * publish-date parts from the year down to the format, each at least two digits
   * and parsing back to the part's value.
   */
  lemma RouteWithDateFormat(e: Event, fmt: string)
    requires fmt in DateParts
    ensures EventRoute(e, fmt).name == "event_detail_" + fmt
    ensures EventRoute(e, fmt).kwargs.Keys == {"slug"} + set p | p in DateParts[..Depth(fmt)]
    ensures EventRoute(e, fmt).kwargs["slug"] == e.slug
    ensures fmt in EventRoute(e, fmt).kwargs && "year" in EventRoute(e, fmt).kwargs
    ensures forall p :: p in DateParts[..Depth(fmt)] ==>
              var v := EventRoute(e, fmt).kwargs[p];
              AllDigits(v) && |v| >= 2 && ParseNat(v) == PartValue(e.publishDate, p)
  {
    var n := Depth(fmt);
    DateKwargsContents(e, n);
    assert DateParts[..n][0] == "year" && DateParts[..n][n - 1] == fmt;
  }

  // ---------------------------------------------------------------- get_icalendar_event

  /** An iCalendar property value: text or a date-time. */
  datatype PropValue = TextValue(text: string) | DateValue(time: DateTime)

  /** An iCalendar component: its name and its properties by name. */
  datatype Component = Component(name: string, props: map<string, PropValue>)

  /** `component.add(name, value)` for a name not yet present, and `component[name] = value`. */
  function AddProp(c: Component, name: string, v: PropValue): Component {
    c.(props := c.props[name := v])
  }

  /** `"event-{id}@{domain}"`. */
  function Uid(id: nat, domain: string): string {
    "event-" + NatToString(id) + "@" + domain
  }

  /** Events with different ids get different uids on the same site. */
  lemma UidInjective(a: nat, b: nat, domain: string)
    requires Uid(a, domain) == Uid(b, domain)
    ensures a == b
  {
    var s, t := NatToString(a), NatToString(b);
    var u := Uid(a, domain);
    assert |s| == |t|;
    assert s == u[6..6 + |s|];
    assert t == Uid(b, domain)[6..6 + |t|];
    NatToStringInjective(a, b);
  }

  const EventPropNames: set<string> := {"summary", "url", "location", "dtstamp", "dtstart", "dtend", "uid"}

  /**
   * `c` is the VEVENT of event `e`: summary, absolute url, dtstamp, dtstart and uid
   * always, location exactly when the event has one, dtend exactly when it has an
   * end, and no other property.
   */
  predicate IsEventComponent(c: Component, e: Event, domain: string, path: string) {
    var p := c.props;
    c.name == "VEVENT"
    && p.Keys <= EventPropNames
    && "summary" in p && p["summary"] == TextValue(e.title)
    && "url" in p && p["url"] == TextValue("http://" + domain + path)
    && ("location" in p <==> e.location.Some?)
    && (e.location.Some? ==> p["location"] == TextValue(e.location.value.address))
    && "dtstamp" in p && p["dtstamp"] == DateValue(e.start)
    && "dtstart" in p && p["dtstart"] == DateValue(e.start)
    && ("dtend" in p <==> e.end.Some?)
    && (e.end.Some? ==> p["dtend"] == DateValue(e.end.value))
    && "uid" in p && p["uid"] == TextValue(Uid(e.id, domain))
  }

  /**
   * `Event.get_icalendar_event`: successive `add` calls, then the uid. `reverse`
   * maps a route to its path; `domain` is the current site's domain.
   */
  method GetIcalendarEvent(e: Event, fmt: string, domain: string, reverse: Route -> string)
    returns (c: Component)
    ensures IsEventComponent(c, e, domain, reverse(EventRoute(e, fmt)))
  {
    c := Component("VEVENT", map[]);
    c := AddProp(c, "summary", TextValue(e.title));
    var route := GetAbsoluteUrl(e, fmt);
    c := AddProp(c, "url", TextValue("http://" + domain + reverse(route)));
    if e.location.Some? {
      c := AddProp(c, "location", TextValue(e.location.value.address));
    }
    c := AddProp(c, "dtstamp", DateValue(e.start));
    c := AddProp(c, "dtstart", DateValue(e.start));
    if e.end.Some? {
      c := AddProp(c, "dtend", DateValue(e.end.value));
    }
    c := AddProp(c, "uid", TextValue(Uid(e.id, domain)));
  }

  // ---------------------------------------------------------------- EventLocation.clean

  /** A geocoder's answer: formatted address and coordinates in units of 10^-7 degree. */
  datatype Geocoded = Geocoded(address: string, lat: int, lon: int)

  /**
   * The geocoding service: given the maps domain and a query, an answer or the
   * message of the GQueryError / ValueError it raised.
   */
  type Geocoder = (string, string) -> Result<Geocoded, string>

  /** The validation errors `EventLocation.clean` raises. */
  datatype LocationError =
    | LongitudeRequired          // "Longitude required if specifying latitude."
    | LatitudeRequired           // "Latitude required if specifying longitude."
    | GeocodingFailed(message: string)  // "... could not be found on Google Maps: "<message>" ..."

  /** The fields `clean` reads and writes; coordinates in units of 10^-7 degree. */
  datatype LocationState = LocationState(address: string, mappableLocation: string,
                                         lat: Option<int>, lon: Option<int>)

  /** Python truthiness of a nullable decimal: None and 0 are both false. */
  predicate Truthy(c: Option<int>) {
    c.Some? && c.value != 0
  }

  predicate BothSet(s: LocationState) {
    Truthy(s.lat) && Truthy(s.lon)
  }

  /** Exactly one coordinate is truthy. */
  predicate HalfSet(s: LocationState) {
    Truthy(s.lat) != Truthy(s.lon)
  }

  /** The state after the mappable location may have been derived from the address. */
  function WithDerivedQuery(s: LocationState): LocationState {
    if !BothSet(s) && s.mappableLocation == "" then
      s.(mappableLocation := ReplaceNewlines(s.address))
    else s
  }

  /** Whether `clean` reaches the geocoder. */
  predicate Geocodes(s: LocationState) {
    !HalfSet(s) && WithDerivedQuery(s).mappableLocation != "" && !BothSet(s)
  }

  /** The outcome and resulting fields of `EventLocation.clean`. */
  function Cleaned(s: LocationState, domain: string, geocode: Geocoder)
    : (Outcome<LocationError>, LocationState)
  {
    if Truthy(s.lat) && !Truthy(s.lon) then (Fail(LongitudeRequired), s)
    else if Truthy(s.lon) && !Truthy(s.lat) then (Fail(LatitudeRequired), s)
    else
      var d := WithDerivedQuery(s);
      if d.mappableLocation != "" && !BothSet(d) then
        match geocode(domain, d.mappableLocation)
        case Failure(msg) => (Fail(GeocodingFailed(msg)), d)
        case Success(g) => (Pass, d.(mappableLocation := g.address, lat := Some(g.lat), lon := Some(g.lon)))
      else (Pass, d)
  }

  /** An event location whose `clean` rewrites its own fields. */
  class EventLocation {
    var address: string
    var mappableLocation: string
    var lat: Option<int>
    var lon: Option<int>

    function State(): LocationState
      reads this
    {
      LocationState(address, mappableLocation, lat, lon)
    }

    constructor (address: string, mappableLocation: string, lat: Option<int>, lon: Option<int>)
      ensures State() == LocationState(address, mappableLocation, lat, lon)
    {
      this.address := address;
      this.mappableLocation := mappableLocation;
      this.lat := lat;
      this.lon := lon;
    }

    /** `EventLocation.clean`, with `EVENT_GOOGLE_MAPS_DOMAIN` and the geocoder passed in. */
    method Clean(domain: string, geocode: Geocoder) returns (outcome: Outcome<LocationError>)
      modifies this
      ensures (outcome, State()) == Cleaned(old(State()), domain, geocode)
    {
      if Truthy(lat) && !Truthy(lon) {
        return Fail(LongitudeRequired);
      }
      if Truthy(lon) && !Truthy(lat) {
        return Fail(LatitudeRequired);
      }
      if !(Truthy(lat) && Truthy(lon)) && mappableLocation == "" {
        mappableLocation := ReplaceNewlines(address);
      }
      if mappableLocation != "" && !(Truthy(lat) && Truthy(lon)) {
        var answer := geocode(domain, mappableLocation);
        if answer.Failure? {
          return Fail(GeocodingFailed(answer.error));
        }
        mappableLocation := answer.value.address;
        lat := Some(answer.value.lat);
        lon := Some(answer.value.lon);
      }
      return Pass;
    }
  }

  /**
   * A half-specified pair is rejected, with the message naming the missing
   * coordinate, and nothing is changed; a zero coordinate counts as missing.
   */
  lemma CleanRejectsHalfCoordinates(s: LocationState, domain: string, geocode: Geocoder)
    ensures Cleaned(s, domain, geocode).0 == Fail(LongitudeRequired) <==> Truthy(s.lat) && !Truthy(s.lon)
    ensures Cleaned(s, domain, geocode).0 == Fail(LatitudeRequired) <==> Truthy(s.lon) && !Truthy(s.lat)
    ensures HalfSet(s) ==> Cleaned(s, domain, geocode).1 == s
  {
  }

  /** With both coordinates set, clean neither geocodes nor changes anything. */
  lemma CleanKeepsSetCoordinates(s: LocationState, domain: string, geocode: Geocoder)
    requires BothSet(s)
    ensures Cleaned(s, domain, geocode) == (Pass, s)
  {
  }

  /**
   * The geocoder is consulted only when clean reaches it, and then only about the
   * (possibly derived) mappable location: two geocoders that agree on that one
   * query give the same outcome and fields, and when it is not reached any two do.
   */
  lemma CleanConsultsGeocoderOnce(s: LocationState, domain: string, g1: Geocoder, g2: Geocoder)
    requires Geocodes(s) ==>
               g1(domain, WithDerivedQuery(s).mappableLocation) == g2(domain, WithDerivedQuery(s).mappableLocation)
    ensures Cleaned(s, domain, g1) == Cleaned(s, domain, g2)
  {
  }

  /**
   * When the coordinates are not both set and the mappable location is blank, the
   * query is the address with every line break turned into ", ".
   */
  lemma CleanDerivesQueryFromAddress(s: LocationState)
    requires !BothSet(s) && s.mappableLocation == ""
    ensures WithDerivedQuery(s).mappableLocation == ReplaceNewlines(s.address)
    ensures forall i :: 0 <= i < |WithDerivedQuery(s).mappableLocation| ==>
              WithDerivedQuery(s).mappableLocation[i] != '\n'
  {
  }

  /**
   * A successful geocoding overwrites the mappable location and both coordinates
   * with the provider's answer and keeps the address.
   */
  lemma CleanStoresGeocodedAnswer(s: LocationState, domain: string, geocode: Geocoder, g: Geocoded)
    requires Geocodes(s) && geocode(domain, WithDerivedQuery(s).mappableLocation) == Success(g)
    ensures Cleaned(s, domain, geocode) ==
              (Pass, LocationState(s.address, g.address, Some(g.lat), Some(g.lon)))
  {
  }

  /**
   * A geocoding failure raises with the provider's message and leaves the
   * coordinates unassigned, though the mappable location may already have been
   * derived from the address.
   */
  lemma CleanFailureKeepsCoordinates(s: LocationState, domain: string, geocode: Geocoder, msg: string)
    requires Cleaned(s, domain, geocode).0 == Fail(GeocodingFailed(msg))
    ensures Geocodes(s)
    ensures geocode(domain, WithDerivedQuery(s).mappableLocation) == Failure(msg)
    ensures Cleaned(s, domain, geocode).1 == WithDerivedQuery(s)
    ensures Cleaned(s, domain, geocode).1.lat == s.lat && Cleaned(s, domain, geocode).1.lon == s.lon
  {
  }

  /**
   * After a successful clean the coordinates are both set or both unset, unless
   * the provider answered with a coordinate that is exactly zero.
   */
  lemma CleanPairsCoordinates(s: LocationState, domain: string, geocode: Geocoder)
    requires Cleaned(s, domain, geocode).0 == Pass
    ensures var t := Cleaned(s, domain, geocode).1;
            !HalfSet(t) ||
            (Geocodes(s) && geocode(domain, WithDerivedQuery(s).mappableLocation).Success? &&
             (geocode(domain, WithDerivedQuery(s).mappableLocation).value.lat == 0 ||
              geocode(domain, WithDerivedQuery(s).mappableLocation).value.lon == 0))
  {
    if Geocodes(s) {
      var answer := geocode(domain, WithDerivedQuery(s).mappableLocation);
      assert answer.Success?;
    }
  }

  /**
   * A place on the equator cleans successfully, but the stored zero latitude reads
   * as missing, so cleaning the stored record again raises "Latitude required".
   */
  lemma EquatorFailsRevalidation(address: string, domain: string, geocode: Geocoder, g: Geocoded)
    requires address != "" && forall i :: 0 <= i < |address| ==> address[i] != '\n'
    requires geocode(domain, address) == Success(g) && g.lat == 0 && g.lon != 0
    ensures Cleaned(LocationState(address, "", None, None), domain, geocode) ==
              (Pass, LocationState(address, g.address, Some(0), Some(g.lon)))
    ensures Cleaned(Cleaned(LocationState(address, "", None, None), domain, geocode).1, domain, geocode).0
              == Fail(LatitudeRequired)
  {
  }

  /** Three newline-free lines joined by line breaks become one line joined by ", ". */
  lemma JoinThreeLines(a: string, b: string, c: string)
    requires forall i :: 0 <= i < |a| ==> a[i] != '\n'
    requires forall i :: 0 <= i < |b| ==> b[i] != '\n'
    requires forall i :: 0 <= i < |c| ==> c[i] != '\n'
    ensures ReplaceNewlines(a + "\n" + b + "\n" + c) == a + ", " + b + ", " + c
  {
    ReplaceNewlinesJoin(a + "\n" + b, c);
    ReplaceNewlinesJoin(a, b);
  }

  /**
   * An address of three lines, as in the geocoding fixture: the query sent is its
   * lines joined by ", ", and the provider's formatted address and coordinates
   * are what clean stores.
   */
  lemma CleanMultilineAddress(line1: string, line2: string, line3: string, domain: string,
                              geocode: Geocoder, g: Geocoded)
    requires forall i :: 0 <= i < |line1| ==> line1[i] != '\n'
    requires forall i :: 0 <= i < |line2| ==> line2[i] != '\n'
    requires forall i :: 0 <= i < |line3| ==> line3[i] != '\n'
    requires geocode(domain, line1 + ", " + line2 + ", " + line3) == Success(g)
    ensures var address := line1 + "\n" + line2 + "\n" + line3;
            Cleaned(LocationState(address, "", None, None), domain, geocode) ==
              (Pass, LocationState(address, g.address, Some(g.lat), Some(g.lon)))
  {
    JoinThreeLines(line1, line2, line3);
  }
}
