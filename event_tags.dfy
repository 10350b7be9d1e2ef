/**
 * The template tags: the month archive with its event counts, the recent and
 * upcoming event lists with their soft misses, the Google Calendar link and the
 * iCalendar link of the current page.
 */
module EventTags {
  import opened Wrappers
  import opened Chrono
  import opened Records
  import opened Models
  import opened Views

  // ---------------------------------------------------------------- event_months

  /** `values_list("start", flat=True)`: the start of each row, in order. */
  function Starts(events: seq<Event>): (r: seq<DateTime>)
    ensures |r| == |events|
    ensures forall i :: 0 <= i < |events| ==> r[i] == events[i].start
  {
    seq(|events|, i requires 0 <= i < |events| => events[i].start)
  }

  /** The archive key of each date: the first day of its month. */
  function MonthKeys(dates: seq<DateTime>): (r: seq<DateTime>)
    ensures |r| == |dates|
    ensures forall i :: 0 <= i < |dates| ==> r[i] == MonthStart(dates[i])
  {
    seq(|dates|, i requires 0 <= i < |dates| => MonthStart(dates[i]))
  }

  /** The month keys of the published events, in the model's default order (descending start). */
  function PublishedMonthKeys(db: Db, published: Event -> bool): seq<DateTime> {
    MonthKeys(Starts(SortByStart(Filter(db.events, published), false)))
  }

  predicate Distinct<T(==)>(s: seq<T>) {
    forall i, j :: 0 <= i < j < |s| ==> s[i] != s[j]
  }

  /** The values of `s` without repeats, each kept where it first occurs. */
  function Dedup<T(==,!new)>(s: seq<T>): (r: seq<T>)
    ensures forall x :: x in r <==> x in s
    ensures Distinct(r)
    decreases |s|
  {
    if s == [] then []
    else
      var d := Dedup(s[..|s| - 1]);
      var x := s[|s| - 1];
      assert forall y :: y in s <==> y in s[..|s| - 1] || y == x by {
        assert s == s[..|s| - 1] + [x];
      }
      if x in d then d else d + [x]
  }

  /** `list.count(x)`: how many times `x` occurs in `s`. */
  function Occurrences<T(==)>(s: seq<T>, x: T): (n: nat)
    ensures n == multiset(s)[x]
    decreases |s|
  {
    if s == [] then 0
    else
      assert s == s[..|s| - 1] + [s[|s| - 1]];
      Occurrences(s[..|s| - 1], x) + (if s[|s| - 1] == x then 1 else 0)
  }

  /** One archive entry: the first day of a month and how many published events start in it. */
  datatype MonthCount = MonthCount(date: DateTime, eventCount: nat)

  /**
   * `months` lists each distinct month key once, where it first occurs in `keys`,
   * with the number of keys equal to it.
   */
  predicate IsMonthArchive(months: seq<MonthCount>, keys: seq<DateTime>) {
    |months| == |Dedup(keys)| &&
    forall i :: 0 <= i < |months| ==>
      months[i].date == Dedup(keys)[i] && months[i].eventCount == multiset(keys)[months[i].date]
  }

  /** The first loop of `event_months`: each key kept once, where it first occurs. */
  method FirstOccurrences(keys: seq<DateTime>) returns (firsts: seq<DateTime>)
    ensures firsts == Dedup(keys)
  {
    firsts := [];
    var i := 0;
    while i < |keys|
      invariant 0 <= i <= |keys|
      invariant firsts == Dedup(keys[..i])
    {
      assert keys[..i + 1][..i] == keys[..i];
      if keys[i] !in firsts {
        firsts := firsts + [keys[i]];
      }
      i := i + 1;
    }
    assert keys[..i] == keys;
  }

  /**
   * `event_months`: the month keys of the published start dates, each kept once
   * where it first occurs, then each entry given the number of dates in its month.
   */
  method EventMonths(db: Db, published: Event -> bool) returns (months: seq<MonthCount>)
    ensures IsMonthArchive(months, PublishedMonthKeys(db, published))
  {
    var keys := PublishedMonthKeys(db, published);
    var firsts := FirstOccurrences(keys);
    months := seq(|firsts|, j requires 0 <= j < |firsts| => MonthCount(firsts[j], 0));
    var k := 0;
    while k < |months|
      invariant 0 <= k <= |months| == |firsts|
      invariant forall j :: 0 <= j < |months| ==> months[j].date == firsts[j]
      invariant forall j :: 0 <= j < k ==> months[j].eventCount == multiset(keys)[firsts[j]]
    {
      months := months[k := months[k].(eventCount := Occurrences(keys, months[k].date))];
      k := k + 1;
    }
  }

  /** The position of the first occurrence of `x` in `s`. */
  function FirstIndex<T(==)>(s: seq<T>, x: T): (i: nat)
    requires x in s
    ensures i < |s| && s[i] == x
    ensures forall j :: 0 <= j < i ==> s[j] != x
    decreases |s|
  {
    if s[0] == x then 0 else 1 + FirstIndex(s[1..], x)
  }

  /** `Dedup` keeps its values in the order of their first occurrences. */
  lemma {:induction false} DedupKeepsFirstOccurrenceOrder<T(!new)>(s: seq<T>)
    ensures forall i, j :: 0 <= i < j < |Dedup(s)| ==> FirstIndex(s, Dedup(s)[i]) < FirstIndex(s, Dedup(s)[j])
    decreases |s|
  {
    if s != [] {
      var init := s[..|s| - 1];
      var x := s[|s| - 1];
      DedupKeepsFirstOccurrenceOrder(init);
      assert s == init + [x];
      var d := Dedup(init);
      forall y | y in init ensures FirstIndex(s, y) == FirstIndex(init, y) {
        var a := FirstIndex(s, y);
        var b := FirstIndex(init, y);
        assert s[b] == y;
      }
      if x !in d {
        assert FirstIndex(s, x) == |s| - 1;
        forall i, j | 0 <= i < j < |Dedup(s)|
          ensures FirstIndex(s, Dedup(s)[i]) < FirstIndex(s, Dedup(s)[j])
        {
          assert Dedup(s) == d + [x];
          assert Dedup(s)[i] == d[i] && d[i] in init;
          if j < |d| { assert Dedup(s)[j] == d[j] && d[j] in init; }
        }
      }
    }
  }

  /** The summed counts of the distinct values `d`, each counted in `s`. */
  function SumOccurrences<T(==)>(d: seq<T>, s: seq<T>): nat
    decreases |d|
  {
    if d == [] then 0 else SumOccurrences(d[..|d| - 1], s) + multiset(s)[d[|d| - 1]]
  }

  lemma {:induction false} SumOccurrencesGrow<T>(d: seq<T>, s: seq<T>, x: T)
    requires Distinct(d)
    ensures SumOccurrences(d, s + [x]) == SumOccurrences(d, s) + (if x in d then 1 else 0)
    decreases |d|
  {
    if d != [] {
      var init := d[..|d| - 1];
      assert d == init + [d[|d| - 1]];
      SumOccurrencesGrow(init, s, x);
      assert multiset(s + [x]) == multiset(s) + multiset{x};
    }
  }

  /** Counting every distinct value of `s` in `s` accounts for each element once. */
  lemma {:induction false} DedupCountsSum<T(!new)>(s: seq<T>)
    ensures SumOccurrences(Dedup(s), s) == |s|
    decreases |s|
  {
    if s != [] {
      var init := s[..|s| - 1];
      var x := s[|s| - 1];
      assert s == init + [x];
      DedupCountsSum(init);
      var d := Dedup(init);
      SumOccurrencesGrow(d, init, x);
      if x !in d {
        assert x !in init;
        assert multiset(s)[x] == 1;
        assert Dedup(s) == d + [x];
        assert (d + [x])[..|d + [x]| - 1] == d;
      }
    }
  }

  function SumEventCounts(months: seq<MonthCount>): nat
    decreases |months|
  {
    if months == [] then 0 else SumEventCounts(months[..|months| - 1]) + months[|months| - 1].eventCount
  }

  lemma {:induction false} SumEventCountsMatches(months: seq<MonthCount>, d: seq<DateTime>, keys: seq<DateTime>)
    requires |months| == |d|
    requires forall i :: 0 <= i < |months| ==> months[i].eventCount == multiset(keys)[d[i]]
    ensures SumEventCounts(months) == SumOccurrences(d, keys)
    decreases |months|
  {
    if months != [] {
      SumEventCountsMatches(months[..|months| - 1], d[..|d| - 1], keys);
    }
  }

  /** The archive never lists a month twice, and each month it lists has an event. */
  lemma EventMonthsDistinct(months: seq<MonthCount>, keys: seq<DateTime>)
    requires IsMonthArchive(months, keys)
    ensures forall i, j :: 0 <= i < j < |months| ==> months[i].date != months[j].date
    ensures forall i :: 0 <= i < |months| ==> months[i].date in keys && months[i].eventCount >= 1
  {
    forall i | 0 <= i < |months| ensures months[i].date in keys && months[i].eventCount >= 1 {
      assert Dedup(keys)[i] in Dedup(keys);
    }
  }

  /** Every key has its month in the archive. */
  lemma EventMonthsListKey(months: seq<MonthCount>, keys: seq<DateTime>, k: DateTime)
    requires IsMonthArchive(months, keys)
    requires k in keys
    ensures exists i :: 0 <= i < |months| && months[i].date == k
  {
    var i :| 0 <= i < |Dedup(keys)| && Dedup(keys)[i] == k;
    assert months[i].date == k;
  }

  /** The archive lists its months in the order in which their first events occur. */
  lemma EventMonthsOrder(months: seq<MonthCount>, keys: seq<DateTime>)
    requires IsMonthArchive(months, keys)
    ensures forall i, j :: 0 <= i < j < |months| ==>
              months[i].date in keys && months[j].date in keys &&
              FirstIndex(keys, months[i].date) < FirstIndex(keys, months[j].date)
  {
    DedupKeepsFirstOccurrenceOrder(keys);
    EventMonthsDistinct(months, keys);
  }

  /** The archive's counts add up to the number of keys. */
  lemma EventMonthsCountsSum(months: seq<MonthCount>, keys: seq<DateTime>)
    requires IsMonthArchive(months, keys)
    ensures SumEventCounts(months) == |keys|
  {
    SumEventCountsMatches(months, Dedup(keys), keys);
    DedupCountsSum(keys);
  }

  /** There is one month key per published event. */
  lemma PublishedMonthKeysCount(db: Db, published: Event -> bool)
    ensures |PublishedMonthKeys(db, published)| == |Filter(db.events, published)|
  {
    var chosen := Filter(db.events, published);
    assert |multiset(SortByStart(chosen, false))| == |multiset(chosen)|;
  }

  /** A date is a month key exactly when a published event starts in its month. */
  lemma PublishedMonthKeysMembers(db: Db, published: Event -> bool, d: DateTime)
    ensures d in PublishedMonthKeys(db, published) <==>
              exists e :: e in Filter(db.events, published) && MonthStart(e.start) == d
  {
    var chosen := Filter(db.events, published);
    var events := SortByStart(chosen, false);
    var keys := PublishedMonthKeys(db, published);
    if d in keys {
      var k :| 0 <= k < |keys| && keys[k] == d;
      SortByStartMembers(chosen, false, events[k]);
    }
    if e :| e in chosen && MonthStart(e.start) == d {
      SortByStartMembers(chosen, false, e);
      var k :| 0 <= k < |events| && events[k] == e;
      assert keys[k] == d;
    }
  }

  /**
   * For the published events: the archive lists exactly the months in which a
   * published event starts, and its counts add up to the number of published events.
   */
  lemma EventMonthsCoverPublished(db: Db, published: Event -> bool, months: seq<MonthCount>)
    requires IsMonthArchive(months, PublishedMonthKeys(db, published))
    ensures forall i :: 0 <= i < |months| ==>
              exists e :: e in Filter(db.events, published) && MonthStart(e.start) == months[i].date
    ensures forall e :: e in Filter(db.events, published) ==>
              exists i :: 0 <= i < |months| && months[i].date == MonthStart(e.start)
    ensures SumEventCounts(months) == |Filter(db.events, published)|
  {
    var keys := PublishedMonthKeys(db, published);
    forall i | 0 <= i < |months|
      ensures exists e :: e in Filter(db.events, published) && MonthStart(e.start) == months[i].date
    {
      EventMonthsDistinct(months, keys);
      PublishedMonthKeysMembers(db, published, months[i].date);
    }
    forall e | e in Filter(db.events, published)
      ensures exists i :: 0 <= i < |months| && months[i].date == MonthStart(e.start)
    {
      PublishedMonthKeysMembers(db, published, MonthStart(e.start));
      EventMonthsListKey(months, keys, MonthStart(e.start));
    }
    EventMonthsCountsSum(months, keys);
    PublishedMonthKeysCount(db, published);
  }

  // ---------------------------------------------------------------- recent_events and upcoming_events

  /** `Keyword.objects.get(Q(title=s) | Q(slug=s))`. */
  function KeywordByTitleOrSlug(db: Db, s: string): Lookup<Keyword> {
    Get(db.keywords, (k: Keyword) => k.title == s || k.slug == s)
  }

  /** `EventLocation.objects.get(Q(title=s) | Q(slug=s))`. */
  function LocationByTitleOrSlug(db: Db, s: string): Lookup<Location> {
    Get(db.locations, (l: Location) => l.title == s || l.slug == s)
  }

  /** `User.objects.get(username=s)`. */
  function UserByName(db: Db, s: string): Lookup<User> {
    Get(db.users, (u: User) => u.username == s)
  }

  /**
   * The targets of a recent/upcoming list, looked up in the order tag, location,
   * author: None when a given one names nothing (the tag then returns []), an
   * error when a lookup finds several rows.
   */
  function SoftTargets(db: Db, tag: Option<string>, location: Option<string>, username: Option<string>)
    : Result<Option<Targets>, Error>
  {
    if tag.Some? && KeywordByTitleOrSlug(db, tag.value).Missing? then Success(None)
    else if tag.Some? && KeywordByTitleOrSlug(db, tag.value).Ambiguous? then Failure(MultipleObjectsReturned)
    else if location.Some? && LocationByTitleOrSlug(db, location.value).Missing? then Success(None)
    else if location.Some? && LocationByTitleOrSlug(db, location.value).Ambiguous? then Failure(MultipleObjectsReturned)
    else if username.Some? && UserByName(db, username.value).Missing? then Success(None)
    else if username.Some? && UserByName(db, username.value).Ambiguous? then Failure(MultipleObjectsReturned)
    else
      Success(Some(Targets(if tag.Some? then Some(KeywordByTitleOrSlug(db, tag.value).obj) else None,
                           None, None,
                           if location.Some? then Some(LocationByTitleOrSlug(db, location.value).obj) else None,
                           if username.Some? then Some(UserByName(db, username.value).obj) else None)))
  }

  /**
   * What the recent/upcoming tags return for a time window: [] after a soft miss,
   * otherwise the first `limit` published events in the window that match the
   * targets, newest start first.
   */
  function WindowEvents(db: Db, published: Event -> bool, window: Event -> bool, limit: nat,
                        tag: Option<string>, username: Option<string>, location: Option<string>)
    : Result<seq<Event>, Error>
  {
    match SoftTargets(db, tag, location, username)
    case Failure(err) => Failure(err)
    case Success(None) => Success([])
    case Success(Some(t)) =>
      Success(Take(SortByStart(Matching(Filter(Filter(db.events, published), window), t), false), limit))
  }

  /** The lookups and filters the two tags share, in their order. */
  method SelectWindow(db: Db, published: Event -> bool, window: Event -> bool, limit: nat,
                      tag: Option<string>, username: Option<string>, location: Option<string>)
    returns (r: Result<seq<Event>, Error>)
    ensures r == WindowEvents(db, published, window, limit, tag, username, location)
  {
    var base := Filter(Filter(db.events, published), window);
    var events := base;
    var t := Targets(None, None, None, None, None);
    FilterAll(base, (e: Event) => Matches(e, t));
    if tag.Some? {
      var keyword := KeywordByTitleOrSlug(db, tag.value);
      if keyword.Missing? {
        return Success([]);
      } else if keyword.Ambiguous? {
        return Failure(MultipleObjectsReturned);
      }
      var k := keyword.obj;
      events := NarrowBy(base, events, t, t.(tag := Some(k)), (e: Event) => k.id in e.keywords);
      t := t.(tag := Some(k));
    }
    if location.Some? {
      var place := LocationByTitleOrSlug(db, location.value);
      if place.Missing? {
        return Success([]);
      } else if place.Ambiguous? {
        return Failure(MultipleObjectsReturned);
      }
      var l := place.obj;
      events := NarrowBy(base, events, t, t.(location := Some(l)),
                         (e: Event) => e.location.Some? && e.location.value.id == l.id);
      t := t.(location := Some(l));
    }
    if username.Some? {
      var author := UserByName(db, username.value);
      if author.Missing? {
        return Success([]);
      } else if author.Ambiguous? {
        return Failure(MultipleObjectsReturned);
      }
      var u := author.obj;
      events := NarrowBy(base, events, t, t.(author := Some(u)), (e: Event) => e.user.id == u.id);
      t := t.(author := Some(u));
    }
    assert SoftTargets(db, tag, location, username) == Success(Some(t));
    events := SortByStart(events, false);
    r := Success(Take(events, limit));
  }

  /** `recent_events`: events that started or ended before `now`. */
  method RecentEvents(db: Db, published: Event -> bool, now: DateTime, limit: nat,
                      tag: Option<string>, username: Option<string>, location: Option<string>)
    returns (r: Result<seq<Event>, Error>)
    ensures r == WindowEvents(db, published, (e: Event) => StartedOrEnded(e, now), limit, tag, username, location)
  {
    r := SelectWindow(db, published, (e: Event) => StartedOrEnded(e, now), limit, tag, username, location);
  }

  /** `upcoming_events`: events that start or end after `now`. */
  method UpcomingEvents(db: Db, published: Event -> bool, now: DateTime, limit: nat,
                        tag: Option<string>, username: Option<string>, location: Option<string>)
    returns (r: Result<seq<Event>, Error>)
    ensures r == WindowEvents(db, published, (e: Event) => UpcomingOrOngoing(e, now), limit, tag, username, location)
  {
    r := SelectWindow(db, published, (e: Event) => UpcomingOrOngoing(e, now), limit, tag, username, location);
  }

  /**
   * Soft misses: a given tag or location that matches no title or slug, or a
   * username that names nobody, makes the list empty instead of raising Http404;
   * the only error the tags raise is an ambiguous lookup.
   */
  lemma WindowEventsSoftMiss(db: Db, published: Event -> bool, window: Event -> bool, limit: nat,
                             tag: Option<string>, username: Option<string>, location: Option<string>)
    ensures WindowEvents(db, published, window, limit, tag, username, location).Failure? ==>
              WindowEvents(db, published, window, limit, tag, username, location).error == MultipleObjectsReturned
    ensures tag.Some? && (forall k :: k in db.keywords ==> k.title != tag.value && k.slug != tag.value) ==>
              WindowEvents(db, published, window, limit, tag, username, location) == Success([])
    ensures (location.Some? && forall l :: l in db.locations ==> l.title != location.value && l.slug != location.value)
            || (username.Some? && forall u :: u in db.users ==> u.username != username.value) ==>
              (WindowEvents(db, published, window, limit, tag, username, location).Success? ==>
               WindowEvents(db, published, window, limit, tag, username, location).value == [])
    ensures (tag.None? || KeywordByTitleOrSlug(db, tag.value).Found?) &&
            location.Some? && (forall l :: l in db.locations ==> l.title != location.value && l.slug != location.value) ==>
              WindowEvents(db, published, window, limit, tag, username, location) == Success([])
    ensures (tag.None? || KeywordByTitleOrSlug(db, tag.value).Found?) &&
            (location.None? || LocationByTitleOrSlug(db, location.value).Found?) &&
            username.Some? && (forall u :: u in db.users ==> u.username != username.value) ==>
              WindowEvents(db, published, window, limit, tag, username, location) == Success([])
  {
  }

  /**
   * Once the targets resolve, the list holds at most `limit` events, is the first
   * part of the newest-first listing, and every event in it is published, in the
   * window and matches each target.
   */
  lemma WindowEventsBounded(db: Db, published: Event -> bool, window: Event -> bool, limit: nat,
                            tag: Option<string>, username: Option<string>, location: Option<string>,
                            t: Targets, e: Event)
    requires SoftTargets(db, tag, location, username) == Success(Some(t))
    ensures var listing := SortByStart(Matching(Filter(Filter(db.events, published), window), t), false);
            var r := WindowEvents(db, published, window, limit, tag, username, location);
            r.Success? && |r.value| <= limit && r.value == listing[..|r.value|] &&
            (|r.value| < limit ==> r.value == listing)
    ensures e in WindowEvents(db, published, window, limit, tag, username, location).value ==>
              e in db.events && published(e) && window(e) && Matches(e, t)
  {
    var chosen := Matching(Filter(Filter(db.events, published), window), t);
    var listing := SortByStart(chosen, false);
    var items := WindowEvents(db, published, window, limit, tag, username, location).value;
    assert items == Take(listing, limit);
    if e in items {
      var i :| 0 <= i < |items| && items[i] == e;
      assert listing[i] == e;
      SortByStartMembers(chosen, false, e);
    }
  }

  /** Every recent event started or ended before `now`; an event with no end must have started. */
  lemma RecentEventsInWindow(db: Db, published: Event -> bool, now: DateTime, limit: nat,
                             tag: Option<string>, username: Option<string>, location: Option<string>, e: Event)
    requires WindowEvents(db, published, (x: Event) => StartedOrEnded(x, now), limit, tag, username, location).Success?
    requires e in WindowEvents(db, published, (x: Event) => StartedOrEnded(x, now), limit, tag, username, location).value
    ensures Before(e.start, now) || (e.end.Some? && Before(e.end.value, now))
    ensures e.end.None? ==> Before(e.start, now)
  {
    var window := (x: Event) => StartedOrEnded(x, now);
    var targets := SoftTargets(db, tag, location, username);
    assert targets.Success? && targets.value.Some?;
    WindowEventsBounded(db, published, window, limit, tag, username, location, targets.value.value, e);
  }

  /** Every upcoming event starts or ends after `now`; an event with no end must start after it. */
  lemma UpcomingEventsInWindow(db: Db, published: Event -> bool, now: DateTime, limit: nat,
                               tag: Option<string>, username: Option<string>, location: Option<string>, e: Event)
    requires WindowEvents(db, published, (x: Event) => UpcomingOrOngoing(x, now), limit, tag, username, location).Success?
    requires e in WindowEvents(db, published, (x: Event) => UpcomingOrOngoing(x, now), limit, tag, username, location).value
    ensures Before(now, e.start) || (e.end.Some? && Before(now, e.end.value))
    ensures e.end.None? ==> Before(now, e.start)
  {
    var window := (x: Event) => UpcomingOrOngoing(x, now);
    var targets := SoftTargets(db, tag, location, username);
    assert targets.Success? && targets.value.Some?;
    WindowEventsBounded(db, published, window, limit, tag, username, location, targets.value.value, e);
  }

  // ---------------------------------------------------------------- google_calendar_url

  /** What the filter receives: an event, or any other template value. */
  datatype FilterArg = EventArg(event: Event) | OtherArg

  /** The parts of the Google Calendar link, before they are put into its query string. */
  datatype CalendarLinkParts = CalendarLinkParts(text: string, startDate: string, endDate: string,
                                                 website: string, location: string)

  /**
   * The parts of the link of an event: quoted title, UTC start and end stamps
   * (the end falls back to the start), the event's absolute url on the site and
   * the quoted mappable location, or the text "None" when there is no location.
   * `quote` is `urlquote`; `stamp` is `_get_utc(...).strftime("%Y%m%dT%H%M%SZ")`.
   */
  function GoogleCalendarParts(e: Event, domain: string, path: string,
                               quote: string -> string, stamp: DateTime -> string): (p: CalendarLinkParts)
    ensures p.text == quote(e.title) && p.startDate == stamp(e.start)
    ensures p.endDate == if e.end.Some? then stamp(e.end.value) else p.startDate
    ensures p.website == domain + path
    ensures p.location == if e.location.Some? then quote(e.location.value.mappableLocation) else "None"
  {
    var startDate := stamp(e.start);
    CalendarLinkParts(quote(e.title), startDate,
                      if e.end.Some? then stamp(e.end.value) else startDate,
                      domain + path,
                      if e.location.Some? then quote(e.location.value.mappableLocation) else "None")
  }

  /** The link template filled with the parts. */
  function RenderCalendarLink(p: CalendarLinkParts): string {
    "http://www.google.com/calendar/event?action=TEMPLATE&text=" + p.text
    + "&dates=" + p.startDate + "/" + p.endDate
    + "&sprop=website:" + p.website
    + "&location=" + p.location + "&trp=true"
  }

  /**
   * `google_calendar_url`: "" for anything but an event; otherwise the link
   * built from the event's parts, its url being `reverse` of its route.
   */
  function GoogleCalendarUrl(arg: FilterArg, fmt: string, domain: string, reverse: Route -> string,
                             quote: string -> string, stamp: DateTime -> string): (r: string)
    ensures arg.OtherArg? ==> r == ""
    ensures arg.EventArg? ==>
              r == RenderCalendarLink(GoogleCalendarParts(arg.event, domain, reverse(EventRoute(arg.event, fmt)),
                                                          quote, stamp))
  {
    match arg
    case OtherArg => ""
    case EventArg(e) => RenderCalendarLink(GoogleCalendarParts(e, domain, reverse(EventRoute(e, fmt)), quote, stamp))
  }

  /** An event without an end spans no time in the link: its dates read "start/start". */
  lemma GoogleCalendarOpenEnded(e: Event, fmt: string, domain: string, reverse: Route -> string,
                                quote: string -> string, stamp: DateTime -> string)
    requires e.end.None?
    ensures var r := GoogleCalendarUrl(EventArg(e), fmt, domain, reverse, quote, stamp);
            r != "" &&
            r == RenderCalendarLink(CalendarLinkParts(quote(e.title), stamp(e.start), stamp(e.start),
                                                      domain + reverse(EventRoute(e, fmt)),
                                                      if e.location.Some? then quote(e.location.value.mappableLocation)
                                                      else "None"))
  {
  }

  // ---------------------------------------------------------------- icalendar_url

  /** The arguments `icalendar_url` hands to `reverse`. */
  datatype UrlArg = YearArg(year: nat) | MonthArg(month: nat) | TagArg(tag: Keyword)
                  | SlugArg(slug: string) | AuthorArg(author: User)

  /** A calendar link: an event's own `event.ics`, or a named route with its arguments. */
  datatype IcalLink = EventIcs(path: string) | Reversed(name: string, args: seq<UrlArg>)

  /** `strptime` rejecting a month name raises ValueError. */
  datatype TagError = ValueError

  /** The template context's month is truthy: given and not the empty name of month 0. */
  predicate MonthGiven(c: Context) {
    c.month.Some? && c.month.value != ""
  }

  /**
   * `icalendar_url`: the calendar link of the page whose context is `c`, chosen
   * by priority: the event, then the tag, then year and month, the year, the
   * location, the author, and finally the calendar of all events.
   */
  function IcalendarUrl(c: Context, fmt: string, reverse: Route -> string): (r: Result<IcalLink, TagError>)
    ensures c.event.Some? ==> r == Success(EventIcs(reverse(EventRoute(c.event.value, fmt)) + "event.ics"))
    ensures r.Failure? <==> c.event.None? && c.tag.None? && c.year.Some? && MonthGiven(c) &&
                            MonthNumber(c.month.value).None?
    ensures r.Success? && r.value.Reversed? ==> c.event.None?
    ensures r.Success? && r.value.Reversed? && r.value.name == "icalendar" <==>
              c.event.None? && c.tag.None? && c.year.None? && c.location.None? && c.author.None?
  {
    if c.event.Some? then Success(EventIcs(reverse(EventRoute(c.event.value, fmt)) + "event.ics"))
    else if c.tag.Some? then Success(Reversed("icalendar_tag", [TagArg(c.tag.value)]))
    else if c.year.Some? && MonthGiven(c) then
      match MonthNumber(c.month.value)
      case None => Failure(ValueError)
      case Some(m) => Success(Reversed("icalendar_month", [YearArg(c.year.value), MonthArg(m)]))
    else if c.year.Some? then Success(Reversed("icalendar_year", [YearArg(c.year.value)]))
    else if c.location.Some? then Success(Reversed("icalendar_location", [SlugArg(c.location.value.slug)]))
    else if c.author.Some? then Success(Reversed("icalendar_author", [AuthorArg(c.author.value)]))
    else Success(Reversed("icalendar", []))
  }

  /**
   * On a month archive page the link is the calendar of the same year and month;
   * month 0, whose name is blank, links to the year's calendar.
   */
  lemma MonthArchiveLink(year: nat, month: nat, fmt: string, reverse: Route -> string)
    requires month <= 12
    ensures var c := Context(None, Some(year), MonthContext(Some(year), Some(month)), None, None, None);
            IcalendarUrl(c, fmt, reverse) ==
              if month == 0 then Success(Reversed("icalendar_year", [YearArg(year)]))
              else Success(Reversed("icalendar_month", [YearArg(year), MonthArg(month)]))
  {
    var name := MonthName(month).value;
    MonthNameRoundTrip(month, name);
    if month == 0 {
      MonthZeroIsBlank();
    }
  }

  /**
   * The list page of a request links to the calendar of the same filter whenever
   * one target is given: the tag, the year, the location or the author.
   */
  lemma ListPageLink(db: Db, tag: Option<string>, year: Option<nat>, month: Option<nat>,
                     location: Option<string>, username: Option<string>, t: Targets,
                     fmt: string, reverse: Route -> string)
    requires ResolveTargets(db, tag, year, month, location, username) == Success(t)
    ensures var c := Context(None, year, MonthContext(year, month), t.tag, t.location, t.author);
            (tag.Some? ==> IcalendarUrl(c, fmt, reverse) == Success(Reversed("icalendar_tag", [TagArg(t.tag.value)]))) &&
            (tag.None? && year.Some? && month.None? ==>
               IcalendarUrl(c, fmt, reverse) == Success(Reversed("icalendar_year", [YearArg(year.value)]))) &&
            (tag.None? && year.None? && location.Some? ==>
               IcalendarUrl(c, fmt, reverse) == Success(Reversed("icalendar_location", [SlugArg(location.value)]))) &&
            (tag.None? && year.None? && location.None? && username.Some? ==>
               IcalendarUrl(c, fmt, reverse) == Success(Reversed("icalendar_author", [AuthorArg(t.author.value)])))
  {
    ResolvedTargetsExist(db, tag, year, month, location, username, t);
  }
}
