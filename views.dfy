/**
 * The event views: the filter pipeline shared by the list page and the calendar
 * export, the list page's template choice and context, the calendar of a
 * filtered set and of a single event, and the feed-format dispatch.
 */
module Views {
  import opened Wrappers
  import opened Chrono
  import opened Text
  import opened Records
  import opened Models
  import opened Feeds

  // ---------------------------------------------------------------- target resolution

  /**
   * The tag and date targets of a request: the tag is looked up first, then a
   * month index is checked, and the month narrows only together with a year.
   */
  function ResolveTagAndDate(db: Db, tag: Option<string>, year: Option<nat>, month: Option<nat>)
    : Result<Targets, Error>
  {
    match FindKeyword(db, tag)
    case Failure(err) => Failure(err)
    case Success(k) =>
      if year.Some? && month.Some? && MonthName(month.value).None? then Failure(Http404)
      else Success(Targets(k, year, if year.Some? then month else None, None, None))
  }

  /**
   * The filter targets of a list or calendar request, with the view's error order:
   * the tag, then the month index, then the location, then the author.
   */
  function ResolveTargets(db: Db, tag: Option<string>, year: Option<nat>, month: Option<nat>,
                          location: Option<string>, username: Option<string>): Result<Targets, Error>
  {
    match ResolveTagAndDate(db, tag, year, month)
    case Failure(err) => Failure(err)
    case Success(t) =>
      match FindLocation(db, location)
      case Failure(err) => Failure(err)
      case Success(l) =>
        match FindUser(db, username)
        case Failure(err) => Failure(err)
        case Success(u) => Success(t.(location := l, author := u))
  }

  /** `not tag and not year and not location and not username`, on the resolved values. */
  predicate NoFilterGiven(t: Targets, username: Option<string>) {
    t.tag.None? && t.year.None? && t.location.None? && (username.None? || username.value == "")
  }

  /** The month as the view hands it to the template: its name after a year, else as given. */
  function MonthContext(year: Option<nat>, month: Option<nat>): Option<string> {
    if month.None? then None
    else if year.Some? then MonthName(month.value)
    else Some(NatToString(month.value))
  }

  /** What the shared filter pipeline yields: the ordered events and the resolved targets. */
  datatype Selection = Selection(events: seq<Event>, targets: Targets, month: Option<string>)

  /**
   * The events a resolved request lists, before ordering: the visible events
   * matching every target, restricted to upcoming or ongoing events when `all`.
   */
  function Chosen(visibleEvents: seq<Event>, t: Targets, all: bool, now: DateTime): seq<Event> {
    Filter(visibleEvents, (e: Event) => Matches(e, t) && (all ==> UpcomingOrOngoing(e, now)))
  }

  /**
   * The selection, stated declaratively: the chosen events ordered by ascending
   * start when no filter is given, and by descending start otherwise.
   */
  function Select(db: Db, visible: Event -> bool, now: DateTime,
                  tag: Option<string>, year: Option<nat>, month: Option<nat>,
                  location: Option<string>, username: Option<string>): Result<Selection, Error>
  {
    match ResolveTargets(db, tag, year, month, location, username)
    case Failure(err) => Failure(err)
    case Success(t) =>
      var all := NoFilterGiven(t, username);
      Success(Selection(SortByStart(Chosen(Filter(db.events, visible), t, all, now), all),
                        t, MonthContext(year, month)))
  }

  /** The query set after the target filters applied so far: the visible events matching them. */
  datatype Narrowed = Narrowed(events: seq<Event>, targets: Targets)

  /**
   * The tag filter, then the year filter and, after a year, the month filter; a
   * month index past 12 raises Http404 once the month filter is applied.
   */
  method NarrowByTagAndDate(db: Db, base: seq<Event>, tag: Option<string>, year: Option<nat>, month: Option<nat>)
    returns (r: Result<Narrowed, Error>)
    ensures r.Failure? ==> ResolveTagAndDate(db, tag, year, month) == Failure(r.error)
    ensures r.Success? ==> ResolveTagAndDate(db, tag, year, month) == Success(r.value.targets)
    ensures r.Success? ==> r.value.events == Matching(base, r.value.targets)
  {
    var events := base;
    var t := Targets(None, None, None, None, None);
    FilterAll(base, (e: Event) => Matches(e, t));
    var keyword := FindKeyword(db, tag);
    if keyword.Failure? {
      return Failure(keyword.error);
    }
    if keyword.value.Some? {
      var k := keyword.value.value;
      events := NarrowBy(base, events, t, t.(tag := Some(k)), (e: Event) => k.id in e.keywords);
      t := t.(tag := Some(k));
    }
    if year.Some? {
      var y := year.value;
      events := NarrowBy(base, events, t, t.(year := Some(y)), (e: Event) => e.start.year == y);
      t := t.(year := Some(y));
      if month.Some? {
        var m := month.value;
        events := NarrowBy(base, events, t, t.(month := Some(m)), (e: Event) => e.start.month == m);
        t := t.(month := Some(m));
        if MonthName(m).None? {
          return Failure(Http404);
        }
      }
    }
    assert t == Targets(keyword.value, year, if year.Some? then month else None, None, None);
    r := Success(Narrowed(events, t));
  }

  /**
   * The target lookups and filters of `event_list` and `icalendar`, in the views'
   * order: the query set is rebound once per given target.
   */
  method NarrowByTargets(db: Db, base: seq<Event>,
                         tag: Option<string>, year: Option<nat>, month: Option<nat>,
                         location: Option<string>, username: Option<string>)
    returns (r: Result<Narrowed, Error>)
    ensures r.Failure? ==> ResolveTargets(db, tag, year, month, location, username) == Failure(r.error)
    ensures r.Success? ==> ResolveTargets(db, tag, year, month, location, username) == Success(r.value.targets)
    ensures r.Success? ==> r.value.events == Matching(base, r.value.targets)
  {
    var dated := NarrowByTagAndDate(db, base, tag, year, month);
    if dated.Failure? {
      return Failure(dated.error);
    }
    var events, t := dated.value.events, dated.value.targets;
    var place := FindLocation(db, location);
    if place.Failure? {
      return Failure(place.error);
    }
    if place.value.Some? {
      var l := place.value.value;
      events := NarrowBy(base, events, t, t.(location := Some(l)),
                         (e: Event) => e.location.Some? && e.location.value.id == l.id);
      t := t.(location := Some(l));
    }
    var author := FindUser(db, username);
    if author.Failure? {
      return Failure(author.error);
    }
    if author.value.Some? {
      var u := author.value.value;
      events := NarrowBy(base, events, t, t.(author := Some(u)), (e: Event) => e.user.id == u.id);
      t := t.(author := Some(u));
    }
    assert t == dated.value.targets.(location := place.value, author := author.value);
    r := Success(Narrowed(events, t));
  }

  /**
   * The filter pipeline of `event_list` and `icalendar`: the visible events
   * narrowed by each given target, restricted to the default window and ordered
   * by ascending start when no filter was given, ordered by descending start
   * otherwise; the month is handed on by name.
   */
  method SelectEvents(db: Db, visible: Event -> bool, now: DateTime,
                      tag: Option<string>, year: Option<nat>, month: Option<nat>,
                      location: Option<string>, username: Option<string>)
    returns (r: Result<Selection, Error>)
    ensures r == Select(db, visible, now, tag, year, month, location, username)
    ensures r.Success? ==> ResolveTargets(db, tag, year, month, location, username) == Success(r.value.targets)
    ensures r.Success? ==> r.value.month == MonthContext(year, month)
  {
    var base := Filter(db.events, visible);
    var narrowed := NarrowByTargets(db, base, tag, year, month, location, username);
    if narrowed.Failure? {
      return Failure(narrowed.error);
    }
    var events := narrowed.value.events;
    var t := narrowed.value.targets;
    var all := t.tag.None? && year.None? && t.location.None? && (username.None? || username.value == "");
    if all {
      FilterFilter(base, (e: Event) => Matches(e, t), (e: Event) => UpcomingOrOngoing(e, now),
                   (e: Event) => Matches(e, t) && (all ==> UpcomingOrOngoing(e, now)));
      events := Filter(events, (e: Event) => UpcomingOrOngoing(e, now));
    } else {
      FilterAgree(base, (e: Event) => Matches(e, t),
                  (e: Event) => Matches(e, t) && (all ==> UpcomingOrOngoing(e, now)));
    }
    assert events == Chosen(base, t, all, now);
    events := SortByStart(events, all);
    r := Success(Selection(events, t, MonthContext(year, month)));
  }

  // ---------------------------------------------------------------- properties of the selection

  /**
   * The selection is the conjunction of its filters: an event is listed exactly
   * when it is visible, matches every resolved target and, when no filter is
   * given, is upcoming or ongoing.
   */
  lemma SelectIsConjunctive(db: Db, visible: Event -> bool, now: DateTime,
                            tag: Option<string>, year: Option<nat>, month: Option<nat>,
                            location: Option<string>, username: Option<string>, t: Targets, e: Event)
    requires ResolveTargets(db, tag, year, month, location, username) == Success(t)
    ensures Select(db, visible, now, tag, year, month, location, username).Success?
    ensures e in Select(db, visible, now, tag, year, month, location, username).value.events <==>
              e in db.events && visible(e) && Matches(e, t) &&
              (NoFilterGiven(t, username) ==> UpcomingOrOngoing(e, now))
  {
    var all := NoFilterGiven(t, username);
    var chosen := Chosen(Filter(db.events, visible), t, all, now);
    var sorted := SortByStart(chosen, all);
    assert Select(db, visible, now, tag, year, month, location, username).value.events == sorted;
    assert e in sorted <==> e in multiset(sorted);
    assert e in chosen <==> e in multiset(chosen);
  }

  /**
   * Ordering: with no filter the events ascend by start and are all upcoming or
   * ongoing; otherwise they descend by start (the model's default ordering).
   */
  lemma SelectOrder(db: Db, visible: Event -> bool, now: DateTime,
                    tag: Option<string>, year: Option<nat>, month: Option<nat>,
                    location: Option<string>, username: Option<string>, t: Targets)
    requires ResolveTargets(db, tag, year, month, location, username) == Success(t)
    ensures var events := Select(db, visible, now, tag, year, month, location, username).value.events;
            if NoFilterGiven(t, username) then
              SortedByStart(events, true) && forall e :: e in events ==> UpcomingOrOngoing(e, now)
            else SortedByStart(events, false)
  {
    var events := Select(db, visible, now, tag, year, month, location, username).value.events;
    forall e | e in events ensures NoFilterGiven(t, username) ==> UpcomingOrOngoing(e, now) {
      SelectIsConjunctive(db, visible, now, tag, year, month, location, username, t, e);
    }
  }

  /** Targets resolve only when every named one exists, and the month only narrows after a year. */
  lemma ResolvedTargetsExist(db: Db, tag: Option<string>, year: Option<nat>, month: Option<nat>,
                             location: Option<string>, username: Option<string>, t: Targets)
    requires ResolveTargets(db, tag, year, month, location, username) == Success(t)
    ensures tag.Some? <==> t.tag.Some?
    ensures tag.Some? ==> t.tag.value in db.keywords && t.tag.value.slug == tag.value
    ensures location.Some? <==> t.location.Some?
    ensures location.Some? ==> t.location.value in db.locations && t.location.value.slug == location.value
    ensures username.Some? <==> t.author.Some?
    ensures username.Some? ==> t.author.value in db.users && t.author.value.username == username.value
    ensures t.year == year
    ensures t.month == if year.Some? then month else None
    ensures year.Some? && month.Some? ==> month.value <= 12
  {
  }

  /**
   * A tag, location or username that names nothing makes the view raise Http404
   * (an earlier target may already have failed); it never yields an empty list.
   */
  lemma MissingTargetRaises(db: Db, visible: Event -> bool, now: DateTime,
                            tag: Option<string>, year: Option<nat>, month: Option<nat>,
                            location: Option<string>, username: Option<string>)
    requires (tag.Some? && forall k :: k in db.keywords ==> k.slug != tag.value)
          || (location.Some? && forall l :: l in db.locations ==> l.slug != location.value)
          || (username.Some? && forall u :: u in db.users ==> u.username != username.value)
    ensures Select(db, visible, now, tag, year, month, location, username).Failure?
    ensures tag.Some? && (forall k :: k in db.keywords ==> k.slug != tag.value) ==>
              Select(db, visible, now, tag, year, month, location, username) == Failure(Http404)
    ensures ResolveTagAndDate(db, tag, year, month).Success? &&
            location.Some? && (forall l :: l in db.locations ==> l.slug != location.value) ==>
              Select(db, visible, now, tag, year, month, location, username) == Failure(Http404)
    ensures ResolveTagAndDate(db, tag, year, month).Success? && FindLocation(db, location).Success? &&
            username.Some? && (forall u :: u in db.users ==> u.username != username.value) ==>
              Select(db, visible, now, tag, year, month, location, username) == Failure(Http404)
  {
  }

  /**
   * With a year, a month index past 12 raises Http404, while month 0 is accepted
   * and named by the empty string.
   */
  lemma MonthIndexChecked(db: Db, visible: Event -> bool, now: DateTime,
                          tag: Option<string>, year: nat, month: nat,
                          location: Option<string>, username: Option<string>)
    ensures month > 12 ==> Select(db, visible, now, tag, Some(year), Some(month), location, username).Failure?
    ensures month > 12 && FindKeyword(db, tag).Success? ==>
              Select(db, visible, now, tag, Some(year), Some(month), location, username) == Failure(Http404)
    ensures month == 0 && FindKeyword(db, tag).Success? && FindLocation(db, location).Success?
            && FindUser(db, username).Success? ==>
              Select(db, visible, now, tag, Some(year), Some(0), location, username).Success? &&
              Select(db, visible, now, tag, Some(year), Some(0), location, username).value.month == Some("")
  {
  }

  /** Without a year the month is ignored: the same events are selected with or without it. */
  lemma MonthNeedsYear(db: Db, visible: Event -> bool, now: DateTime,
                       tag: Option<string>, month: nat,
                       location: Option<string>, username: Option<string>)
    ensures Select(db, visible, now, tag, None, Some(month), location, username).Success? ==
            Select(db, visible, now, tag, None, None, location, username).Success?
    ensures Select(db, visible, now, tag, None, Some(month), location, username).Success? ==>
              Select(db, visible, now, tag, None, Some(month), location, username).value.events ==
              Select(db, visible, now, tag, None, None, location, username).value.events
  {
    assert ResolveTargets(db, tag, None, Some(month), location, username) ==
           ResolveTargets(db, tag, None, None, location, username);
  }

  // ---------------------------------------------------------------- event_list

  /** The template context of the list page (the `events` entry is the page's events). */
  datatype Context = Context(event: Option<Event>, year: Option<nat>, month: Option<string>,
                             tag: Option<Keyword>, location: Option<Location>, author: Option<User>)

  /** The list page before pagination: its events, the template candidates and the context. */
  datatype ListPage = ListPage(events: seq<Event>, templates: seq<string>, context: Context)

  /** The custom template `agenda/event_list_XXX.html` for a location slug or a username. */
  function ListTemplate(name: string): string {
    "agenda/event_list_" + name + ".html"
  }

  /** The template candidates of the list page: location-specific, author-specific, default. */
  method ListTemplates(location: Option<Location>, username: Option<string>, template: string)
    returns (templates: seq<string>)
    ensures templates ==
              (if location.Some? then [ListTemplate(location.value.slug)] else [])
              + (if username.Some? then [ListTemplate(username.value)] else [])
              + [template]
  {
    templates := [];
    if location.Some? {
      templates := templates + [ListTemplate(location.value.slug)];
    }
    if username.Some? {
      templates := templates + [ListTemplate(username.value)];
    }
    templates := templates + [template];
  }

  /**
   * `event_list` up to pagination and rendering: the selection, then the
   * location-specific template, the author-specific template and the default one.
   */
  method EventList(db: Db, visible: Event -> bool, now: DateTime,
                   tag: Option<string>, year: Option<nat>, month: Option<nat>,
                   username: Option<string>, location: Option<string>, template: string)
    returns (r: Result<ListPage, Error>)
    ensures r.Failure? ==> Select(db, visible, now, tag, year, month, location, username) == Failure(r.error)
    ensures r.Success? ==> Select(db, visible, now, tag, year, month, location, username).Success?
    ensures r.Success? ==> r.value.events == Select(db, visible, now, tag, year, month, location, username).value.events
    ensures r.Success? ==>
              r.value.templates ==
                (if location.Some? then [ListTemplate(location.value)] else [])
                + (if username.Some? then [ListTemplate(username.value)] else [])
                + [template]
    ensures r.Success? ==>
              var c := r.value.context;
              ResolveTargets(db, tag, year, month, location, username) ==
                Success(Targets(c.tag, year, if year.Some? then month else None, c.location, c.author)) &&
              c.event.None? && c.year == year && c.month == MonthContext(year, month)
  {
    var sel := SelectEvents(db, visible, now, tag, year, month, location, username);
    if sel.Failure? {
      return Failure(sel.error);
    }
    var t := sel.value.targets;
    ResolvedTargetsExist(db, tag, year, month, location, username, t);
    var templates := ListTemplates(t.location, username, template);
    var context := Context(None, year, sel.value.month, t.tag, t.location, t.author);
    r := Success(ListPage(sel.value.events, templates, context));
  }

  // ---------------------------------------------------------------- calendars

  /** An iCalendar VCALENDAR: its properties and its components in the order added. */
  datatype Calendar = Calendar(props: map<string, PropValue>, components: seq<Component>)

  /** The properties of a fresh calendar: the product id and the format version 2.0. */
  function CalendarHeader(packageVersion: string): (props: map<string, PropValue>)
    ensures props.Keys == {"prodid", "version"}
    ensures props["prodid"] == TextValue("-//mezzanine-agenda//NONSGML V" + packageVersion + "//EN")
    ensures props["version"] == TextValue("2.0")
  {
    map["prodid" := TextValue("-//mezzanine-agenda//NONSGML V" + packageVersion + "//EN"),
        "version" := TextValue("2.0")]
  }

  /** `_make_icalendar`: a calendar with no component and the two header properties, added in turn. */
  method MakeIcalendar(packageVersion: string) returns (cal: Calendar)
    ensures cal == Calendar(CalendarHeader(packageVersion), [])
  {
    cal := Calendar(map[], []);
    cal := cal.(props := cal.props["prodid" := TextValue("-//mezzanine-agenda//NONSGML V" + packageVersion + "//EN")]);
    cal := cal.(props := cal.props["version" := TextValue("2.0")]);
  }

  /** The calendar holds exactly one VEVENT per event, in the events' order. */
  predicate CalendarOf(cal: Calendar, events: seq<Event>, fmt: string, domain: string, reverse: Route -> string) {
    |cal.components| == |events| &&
    forall i :: 0 <= i < |events| ==>
      IsEventComponent(cal.components[i], events[i], domain, reverse(EventRoute(events[i], fmt)))
  }

  /** The loop of `icalendar`: one `add_component` per event, in order, onto an empty calendar. */
  method AddEventComponents(cal: Calendar, events: seq<Event>, fmt: string, domain: string,
                            reverse: Route -> string)
    returns (full: Calendar)
    requires cal.components == []
    ensures full.props == cal.props
    ensures CalendarOf(full, events, fmt, domain, reverse)
  {
    full := cal;
    var i := 0;
    while i < |events|
      invariant 0 <= i <= |events|
      invariant full.props == cal.props
      invariant CalendarOf(full, events[..i], fmt, domain, reverse)
    {
      var component := GetIcalendarEvent(events[i], fmt, domain, reverse);
      full := full.(components := full.components + [component]);
      assert events[..i + 1] == events[..i] + [events[i]];
      i := i + 1;
    }
    assert events[..i] == events;
  }

  /**
   * `icalendar`: the selection, then a fresh calendar holding one VEVENT per
   * selected event, in query order.
   */
  method Icalendar(db: Db, visible: Event -> bool, now: DateTime,
                   tag: Option<string>, year: Option<nat>, month: Option<nat>,
                   username: Option<string>, location: Option<string>,
                   fmt: string, domain: string, reverse: Route -> string, packageVersion: string)
    returns (r: Result<Calendar, Error>)
    ensures r.Failure? ==> Select(db, visible, now, tag, year, month, location, username) == Failure(r.error)
    ensures r.Success? ==> Select(db, visible, now, tag, year, month, location, username).Success?
    ensures r.Success? ==>
              CalendarOf(r.value, Select(db, visible, now, tag, year, month, location, username).value.events,
                         fmt, domain, reverse)
    ensures r.Success? ==> r.value.props == CalendarHeader(packageVersion)
  {
    var sel := SelectEvents(db, visible, now, tag, year, month, location, username);
    if sel.Failure? {
      return Failure(sel.error);
    }
    var cal := MakeIcalendar(packageVersion);
    cal := AddEventComponents(cal, sel.value.events, fmt, domain, reverse);
    r := Success(cal);
  }

  /** Distinct events on one site get distinct uids in an exported calendar. */
  lemma CalendarUidsDistinct(cal: Calendar, events: seq<Event>, fmt: string, domain: string,
                             reverse: Route -> string, i: nat, j: nat)
    requires CalendarOf(cal, events, fmt, domain, reverse)
    requires i < |events| && j < |events| && events[i].id != events[j].id
    ensures cal.components[i].props["uid"] != cal.components[j].props["uid"]
  {
    if cal.components[i].props["uid"] == cal.components[j].props["uid"] {
      UidInjective(events[i].id, events[j].id, domain);
    }
  }

  /** The condition `slug=slug` of a detail lookup. */
  function SlugIs(slug: string): Event -> bool {
    (e: Event) => e.slug == slug
  }

  /**
   * `icalendar_event`: the visible event with the slug, as a calendar of exactly
   * one component; Http404 when no visible event has the slug.
   */
  method IcalendarEvent(db: Db, visible: Event -> bool, slug: string,
                        fmt: string, domain: string, reverse: Route -> string, packageVersion: string)
    returns (r: Result<Calendar, Error>)
    ensures r == Failure(Http404) <==> forall e :: e in db.events && visible(e) ==> e.slug != slug
    ensures r.Success? ==>
              exists e :: e in db.events && visible(e) && e.slug == slug &&
                          CalendarOf(r.value, [e], fmt, domain, reverse)
    ensures |Filter(Filter(db.events, visible), SlugIs(slug))| == 1 ==>
              r.Success? && CalendarOf(r.value, Filter(Filter(db.events, visible), SlugIs(slug)), fmt, domain, reverse)
    ensures |Filter(Filter(db.events, visible), SlugIs(slug))| >= 2 ==> r == Failure(MultipleObjectsReturned)
    ensures r.Success? ==> r.value.props == CalendarHeader(packageVersion)
  {
    var events := Filter(db.events, visible);
    var found := GetOr404(events, SlugIs(slug));
    if found.Failure? {
      return Failure(found.error);
    }
    var event := found.value;
    var cal := MakeIcalendar(packageVersion);
    var component := GetIcalendarEvent(event, fmt, domain, reverse);
    cal := cal.(components := cal.components + [component]);
    r := Success(cal);
  }

  // ---------------------------------------------------------------- event_feed

  /** `event_feed`: "rss" and "atom" pick their feed; any other format raises Http404. */
  function FeedFor(format: string): (r: Result<FeedFormat, Error>)
    ensures r == Success(Rss) <==> format == "rss"
    ensures r == Success(Atom) <==> format == "atom"
    ensures r.Failure? <==> r == Failure(Http404)
  {
    if format == "rss" then Success(Rss)
    else if format == "atom" then Success(Atom)
    else Failure(Http404)
  }
}
