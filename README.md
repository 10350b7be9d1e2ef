# mezzanine-agenda in Dafny

A model of the core of mezzanine-agenda, the events plugin for the Mezzanine CMS,
with proofs of what its code promises. It covers:

- the validation rules of an `Event`;
- the detail route of an event, built from `EVENT_URLS_DATE_FORMAT`;
- the VEVENT calendar component of an event (section 3.6.1 of RFC 5545);
- `EventLocation.clean`, which validates a location's coordinates and geocodes it;
- the filter pipelines of the list page and the calendar export;
- the RSS/Atom feeds;
- the template tags that list months, recent events and upcoming events and build calendar links.

Files, one module each:

| file | module | models |
|---|---|---|
| `wrappers.dfy` | `Wrappers` | `Option`, `Result` and `Outcome` (pass or a validation error) |
| `chrono.dfy` | `Chrono` | naive datetimes and their order, the first day of a month, `calendar.month_name` and `strptime(…, '%B')` |
| `text.dfy` | `Text` | decimal rendering of naturals, the two-digit padding of date parts, `str.replace("\n", ", ")` |
| `records.dfy` | `Records` | the rows the plugin reads, and the query-set operations it composes |
| `models.py` → `models.dfy` | `Models` | `Event.clean`, `Event.get_absolute_url`, `Event.get_icalendar_event`, `EventLocation.clean` |
| `views.py` → `views.dfy` | `Views` | `event_list`, `_make_icalendar`, `icalendar`, `icalendar_event`, `event_feed` |
| `feeds.py` → `feeds.dfy` | `Feeds` | `EventsRSS.__init__`, `items`, `item_author_name`, `EventsAtom.subtitle` |
| `templatetags/event_tags.py` → `event_tags.dfy` | `EventTags` | `event_months`, `recent_events`, `upcoming_events`, `google_calendar_url`, `icalendar_url` |

The query-set operations in `Records` are:

- filter;
- slice;
- `get`, returning one row, none, or several;
- order by start;
- the two time windows.

How the model represents the source:

- **Database.** The database is a value (`Records.Db`) whose tables are sequences in storage order.
- **Query sets.**
  - A query set is the sequence it would yield.
  - `events = events.filter(q)` is a step that keeps the rows matching `q`.
  - The default model ordering (`-start`) and `order_by("start")` are a stable sort by start. Ties keep storage order.
- **Mutating code.** Code that rebinds or mutates state step by step is written as methods:
  - the filter chains of the views, the feed and the tags;
  - the date-part loop of `get_absolute_url`;
  - the `add` calls that build a calendar component;
  - the two loops of `event_months`;
  - the `add_component` loop of `icalendar`.

  Each method is proved equal to a declarative function. The promised properties are proved about that function.
- **Classes.**
  - `EventLocation` is a class whose `Clean` method rewrites its fields.
  - `EventsFeed` is a class whose constructor sets the public/title state that `Items` reads.
- **Parameters.** The following are parameters:
  - the visibility predicate `published()`;
  - the current time;
  - the site domain;
  - `reverse`, `urlquote`, `strip_tags` and the geocoding service;
  - the settings (`EVENT_URLS_DATE_FORMAT`, `EVENT_RSS_LIMIT`, the site title and tagline, the package version).
- **Python truthiness.**
  - Coordinates are integers in units of 10^-7 degree, because the fields hold seven decimal places.
  - A coordinate of 0 is falsy, as is an empty string.

## Model

| member | source | states |
|---|---|---|
| Models.CleanEvent | mezzanine_agenda/models.py:47-54 | an event passes exactly when it has no end, or its start equals or precedes its end (start == end is accepted); otherwise it raises the one "start must be sooner than end" error |
| Models.DateKwargsContents | mezzanine_agenda/models.py:69-79 | after n date parts the kwargs hold the slug and exactly the first n of year/month/day; each is all digits, at least two long, and parses back to the publish-date part |
| Models.GetAbsoluteUrl | mezzanine_agenda/models.py:56-80 | the loop over the date parts, with its early break, yields the route `EventRoute(e, fmt)` |
| Models.RouteWithoutDateFormat | mezzanine_agenda/models.py:68-71 | a format outside year/month/day gives route "event_detail" with only the slug |
| Models.RouteWithDateFormat | mezzanine_agenda/models.py:71-79 | a date format gives route "event_detail_<fmt>"; its kwargs hold the slug and the parts from year down to and including fmt, each zero-padded to at least two digits and parsing back to its value |
| Models.UidInjective | mezzanine_agenda/models.py:98-101 | `event-{id}@{domain}` determines the id: two events with the same uid on one site have the same id |
| Models.GetIcalendarEvent | mezzanine_agenda/models.py:82-102 | the component is a VEVENT with summary = title, url = http://domain + path, dtstamp = dtstart = start, and uid = event-{id}@{domain}; it has location (the address) exactly when a location is set, dtend exactly when an end is set, and no other property |
| Models.EventLocation.constructor | mezzanine_agenda/models.py:105-113 | the new location holds the given address, mappable location and coordinates |
| Models.EventLocation.Clean | mezzanine_agenda/models.py:120-145 | the outcome and new fields are `Cleaned` of the old fields: the half-pair checks, then the query derived from the address, then the geocoder call only when the coordinates are not both set |
| Models.CleanRejectsHalfCoordinates | mezzanine_agenda/models.py:126-130 | "Longitude required" exactly when lat is truthy and lon is not, "Latitude required" in the symmetric case (0 counts as absent); a rejected record is unchanged |
| Models.CleanKeepsSetCoordinates | mezzanine_agenda/models.py:132-135 | with both coordinates set, clean passes and changes nothing, and never geocodes |
| Models.CleanConsultsGeocoderOnce | mezzanine_agenda/models.py:135-138 | the geocoder matters only when clean reaches it, and then only through its answer for the one (possibly derived) query |
| Models.CleanDerivesQueryFromAddress | mezzanine_agenda/models.py:132-133 | coordinates not both set and a blank mappable location make the query the address with every "\n" replaced by ", ", and the query has no line break |
| Models.CleanStoresGeocodedAnswer | mezzanine_agenda/models.py:135-145 | a successful geocoding overwrites the mappable location, lat and lon with the provider's answer and keeps the address |
| Models.CleanFailureKeepsCoordinates | mezzanine_agenda/models.py:137-142 | a geocoding failure carries the provider's message, happens only when the geocoder was reached, leaves lat and lon unassigned and keeps the mappable location derived at line 133 |
| Models.CleanPairsCoordinates | mezzanine_agenda/models.py:126-145 | after a successful clean, lat and lon are both truthy or both falsy, unless the provider answered with a coordinate that is exactly 0 |
| Models.EquatorFailsRevalidation | mezzanine_agenda/models.py:126-145 | a place on the equator cleans successfully and stores latitude 0, and cleaning the stored record again raises "Latitude required" |
| Models.CleanMultilineAddress | mezzanine_agenda/models.py:132-145 | a three-line address is sent as its lines joined by ", ", and clean stores the provider's address and coordinates (the shape of the fixture in mezzanine_agenda/tests.py) |
| Text.PaddedRoundTrip | mezzanine_agenda/models.py:74-76 | a padded date part is all digits, at least two characters long (exactly two below 100), and parses back to the value |
| Text.ReplaceNewlinesJoin | mezzanine_agenda/models.py:133 | each line break between two lines becomes exactly one ", " |
| Records.Filter | mezzanine_agenda/views.py:41 | `.filter(p)` keeps exactly the rows satisfying p and is no longer than its input |
| Records.FilterAppend | mezzanine_agenda/views.py:41 | `.filter(p)` keeps the rows in their order and multiplicity: filtering a concatenation filters each part, and one row is kept exactly when it satisfies p |
| Records.Get | mezzanine_agenda/views.py:40 | `.get` is Missing exactly when no row satisfies the condition, Found only for the single matching row, and Ambiguous only when at least two rows match |
| Records.GetOr404 | mezzanine_agenda/views.py:40 | `get_object_or_404` raises Http404 exactly when no row matches; a single matching row is returned; several matching rows raise MultipleObjectsReturned |
| Records.SortByStart | mezzanine_agenda/models.py:45 | ordering by start yields a permutation of the rows that is sorted ascending or descending as asked |
| Records.SortByStartMembers | mezzanine_agenda/views.py:62 | ordering by start keeps exactly the same rows |
| Records.NarrowBy | mezzanine_agenda/views.py:41 | one `events = events.filter(q)` step turns the rows matching the targets applied so far into the rows matching those targets plus the new one |
| Chrono.MonthNameRoundTrip | mezzanine_agenda/templatetags/event_tags.py:218 | `strptime(name, '%B').tm_mon` is m exactly when m is in 1..12 and `month_name[m]` is name |
| Chrono.MonthZeroIsBlank | mezzanine_agenda/views.py:47 | `month_name[0]` is the empty string, which `strptime` cannot parse |
| Views.NarrowByTagAndDate | mezzanine_agenda/views.py:39-49 | the tag, year and month steps succeed exactly as `ResolveTagAndDate` does, with the same error; the rows are the base rows matching the resolved targets |
| Views.NarrowByTargets | mezzanine_agenda/views.py:39-58 | the lookups and filter steps fail exactly as `ResolveTargets` does (tag, then month index, then location, then author); on success the rows are the base rows matching the resolved targets |
| Views.SelectEvents | mezzanine_agenda/views.py:36-62 | the imperative pipeline equals the declarative `Select`; on success its targets are the resolved ones and its month is the context month |
| Views.SelectIsConjunctive | mezzanine_agenda/views.py:39-62 | once targets resolve, an event is listed exactly when it is visible, matches every target and, with no filter given, is upcoming or ongoing |
| Views.SelectOrder | mezzanine_agenda/views.py:60-62 | with no filter given the events ascend by start and are all upcoming or ongoing; otherwise they descend by start, the default ordering at models.py:45 |
| Views.ResolvedTargetsExist | mezzanine_agenda/views.py:39-58 | a resolved target exists exactly when it was named, is a stored row with that slug or username, and the month narrows only after a year and is at most 12 |
| Views.MissingTargetRaises | mezzanine_agenda/views.py:40-57 | a tag, location or username that names nothing makes the view fail rather than list nothing; it raises Http404 when every earlier lookup (tag and month index, then location) succeeded |
| Views.MonthIndexChecked | mezzanine_agenda/views.py:44-49 | with a year, a month past 12 fails, and raises Http404 when the tag lookup succeeded; month 0 is accepted and named "" |
| Views.MonthNeedsYear | mezzanine_agenda/views.py:42-45 | without a year the month is ignored: the same events are selected with or without it |
| Views.ListTemplates | mezzanine_agenda/views.py:53-59 | the template candidates are the location template (if any), then the author template (if any), then the default |
| Views.EventList | mezzanine_agenda/views.py:28-72 | the page's events are the selection, or the page fails with the selection's error; the templates are ordered location, author, default; the context holds the resolved tag, location and author, the year and the month by name |
| Views.CalendarHeader | mezzanine_agenda/views.py:103-106 | a fresh calendar has exactly prodid `-//mezzanine-agenda//NONSGML V{version}//EN` and version "2.0" |
| Views.MakeIcalendar | mezzanine_agenda/views.py:99-107 | `_make_icalendar` gives a calendar with no component and the header properties |
| Views.AddEventComponents | mezzanine_agenda/views.py:159-161 | the loop adds exactly one VEVENT per event, in order, and keeps the header |
| Views.Icalendar | mezzanine_agenda/views.py:125-163 | the calendar holds one VEVENT per selected event in query order, under the header, or fails with the selection's error |
| Views.CalendarUidsDistinct | mezzanine_agenda/views.py:159-161 | events with distinct ids get distinct uids in an exported calendar |
| Views.IcalendarEvent | mezzanine_agenda/views.py:110-122 | Http404 exactly when no visible event has the slug; exactly one visible event with the slug gives the calendar of its one VEVENT; several raise MultipleObjectsReturned; a calendar carries the `_make_icalendar` header |
| Views.FeedFor | mezzanine_agenda/views.py:89-96 | "rss" selects the RSS feed, "atom" the Atom feed, and any other format raises Http404 |
| Feeds.EventsPage | mezzanine_agenda/feeds.py:37-40 | no page exactly when no page has the events slug; exactly one such page is returned; several raise MultipleObjectsReturned |
| Feeds.Given | mezzanine_agenda/feeds.py:65-71 | a target argument filters exactly when it is given and non-empty |
| Feeds.EventsFeed.constructor | mezzanine_agenda/feeds.py:25-50 | the feed is public when there is no events page and otherwise exactly when the page needs no login; a public feed's title is "page.title \| SITE_TITLE" and its description the page's stripped description, or SITE_TITLE and SITE_TAGLINE without a page; a private feed sets neither |
| Feeds.EventsFeed.Items | mezzanine_agenda/feeds.py:61-77 | the imperative filter chain equals `FeedItems` of the feed's state |
| Feeds.EventsFeed.Subtitle | mezzanine_agenda/feeds.py:108-109 | the Atom feed's subtitle is its description |
| Feeds.ItemAuthorName | mezzanine_agenda/feeds.py:87-88 | the full name when it is non-empty, else the username |
| Feeds.PrivateFeedIsEmpty | mezzanine_agenda/feeds.py:62-63 | a private feed lists nothing and raises nothing |
| Feeds.LimitIsPrefix | mezzanine_agenda/feeds.py:74-76 | a limit keeps a prefix of at most n rows (all rows when there are fewer); no limit keeps all rows |
| Feeds.FeedItemsAreConjunctive | mezzanine_agenda/feeds.py:64-73 | a public feed's items are published events matching every given target, and without a limit every such event is an item |
| Feeds.FeedItemsLimit | mezzanine_agenda/feeds.py:74-77 | with limit n the items are at most n and are the first rows of the newest-first listing; with None they are the whole listing |
| Feeds.FeedItemsRaise | mezzanine_agenda/feeds.py:65-73 | a public feed raises exactly when a target lookup raises, with the same error |
| Feeds.FeedMissingTargetRaises | mezzanine_agenda/feeds.py:65-72 | a given, non-empty tag, location or username that names nothing makes the lookup fail, with Http404 when the earlier lookups succeeded; a blank tag is ignored |
| EventTags.Dedup | mezzanine_agenda/templatetags/event_tags.py:36-39 | dropping repeats keeps exactly the same values, with no duplicates |
| EventTags.Occurrences | mezzanine_agenda/templatetags/event_tags.py:41 | `list.count(x)` is the multiplicity of x |
| EventTags.FirstOccurrences | mezzanine_agenda/templatetags/event_tags.py:36-39 | the first loop of `event_months` keeps each key once, where it first occurs |
| EventTags.EventMonths | mezzanine_agenda/templatetags/event_tags.py:29-42 | the archive has one entry per distinct month key of the published start dates, in first-occurrence order, each with the number of dates in that month |
| EventTags.DedupKeepsFirstOccurrenceOrder | mezzanine_agenda/templatetags/event_tags.py:37-39 | the deduplicated values appear in the order of their first occurrences |
| EventTags.DedupCountsSum | mezzanine_agenda/templatetags/event_tags.py:40-41 | the counts of the distinct values add up to the length of the list |
| EventTags.EventMonthsDistinct | mezzanine_agenda/templatetags/event_tags.py:36-41 | no month is listed twice, and each listed month has at least one event |
| EventTags.EventMonthsOrder | mezzanine_agenda/templatetags/event_tags.py:37-39 | months are listed in the order of their first published event |
| EventTags.EventMonthsCountsSum | mezzanine_agenda/templatetags/event_tags.py:40-41 | the event counts add up to the number of month keys |
| EventTags.PublishedMonthKeysCount | mezzanine_agenda/templatetags/event_tags.py:34-35 | there is one month key per published event |
| EventTags.PublishedMonthKeysMembers | mezzanine_agenda/templatetags/event_tags.py:34-35 | a date is a month key exactly when a published event starts in that month (day 1 of it) |
| EventTags.EventMonthsCoverPublished | mezzanine_agenda/templatetags/event_tags.py:29-42 | every listed month has a published event, every published event's month is listed, and the counts sum to the number of published events |
| EventTags.SelectWindow | mezzanine_agenda/templatetags/event_tags.py:80-101 | the shared lookup-and-filter steps of the two tags equal `WindowEvents` |
| EventTags.RecentEvents | mezzanine_agenda/templatetags/event_tags.py:65-101 | `recent_events` is `WindowEvents` with the started-or-ended window |
| EventTags.UpcomingEvents | mezzanine_agenda/templatetags/event_tags.py:104-140 | `upcoming_events` is `WindowEvents` with the upcoming-or-ongoing window |
| EventTags.WindowEventsSoftMiss | mezzanine_agenda/templatetags/event_tags.py:83-100 | an unknown tag, or an unknown location or username once the earlier lookups found their row, gives [] instead of raising; the only error is an ambiguous lookup |
| EventTags.WindowEventsBounded | mezzanine_agenda/templatetags/event_tags.py:80-101 | once targets resolve, the result has at most `limit` events, is a prefix of the newest-first listing (all of it when shorter), and holds only published events in the window that match every target |
| EventTags.RecentEventsInWindow | mezzanine_agenda/templatetags/event_tags.py:81 | every recent event started or ended before now; one with no end must have started before now |
| EventTags.UpcomingEventsInWindow | mezzanine_agenda/templatetags/event_tags.py:120 | every upcoming event starts or ends after now; one with no end must start after now |
| EventTags.GoogleCalendarParts | mezzanine_agenda/templatetags/event_tags.py:169-179 | the link parts: quoted title, start stamp, end stamp falling back to the start stamp, domain + path, and quoted mappable location or "None" |
| EventTags.GoogleCalendarUrl | mezzanine_agenda/templatetags/event_tags.py:162-180 | "" for anything but an event; otherwise the link filled with the event's parts |
| EventTags.GoogleCalendarOpenEnded | mezzanine_agenda/templatetags/event_tags.py:171-174 | an event without an end gets a non-empty link whose dates read start/start |
| EventTags.IcalendarUrl | mezzanine_agenda/templatetags/event_tags.py:207-226 | priority event > tag > year+month > year > location > author > "icalendar"; a year with a month name `strptime` cannot parse raises ValueError |
| EventTags.MonthArchiveLink | mezzanine_agenda/templatetags/event_tags.py:217-220 | on a month archive page the link is the calendar of that year and month; month 0, whose name is blank, links to the year's calendar |
| EventTags.ListPageLink | mezzanine_agenda/templatetags/event_tags.py:215-224 | the context of a list page links to the calendar of its tag, year, location or author, by priority |

## Left out

- `paginate` and `render`: the list page is modelled up to its events, its template candidates and its context; the `events` context entry is the events before pagination.
- `select_related` and `prefetch_related`: they change how rows are fetched, not which rows are returned or their order.
- Mezzanine's `published(for_user=...)` visibility, `reverse`, `urlquote`, `strip_tags` and the geocoding service are parameters. `icalendar`'s `to_ical` serialisation and `richtext_filters` (`item_description`) are not part of this model.
- `_get_utc` and `strftime`: the UTC stamp of a datetime is a parameter `stamp`, because timezone conversion depends on the pytz database.
- `datetime.now()`, the site domain, `__version__` and the settings are parameters; `EVENT_RSS_LIMIT` is an `Option<nat>`.
- The UTF-8 encoding of the geocoder query and of the uid: strings are sequences of characters.
- Timezones: datetimes are naive and compared field by field.
- SQL order among rows with equal start: the model keeps storage order, where the database leaves it unspecified.
- `event_detail`, `google_nav_url`, `google_static_map` (float formatting of coordinates), `event_locations`, `event_authors`, `item_author_link`, `item_pubdate`, `item_location` and `EventsRSS.locations` (which names the undefined `EventLocations`) are not part of this model.
- Views.MonthContext: without a year the raw month string is handed to the context; the model renders the month number without its leading zeros ("07" becomes "7").
- Chrono.MonthNumber: `strptime` matches month names without regard to case ("january" parses); the model accepts only the exact capitalised English names.
- EventTags.RecentEvents, EventTags.UpcomingEvents: `limit` is a natural number; a negative slice bound is not modelled.
- Views.FeedFor: models only the format dispatch; a KeyError raised while constructing or rendering the feed, which the same `except` would also turn into Http404, is not modelled.
- EventTags.IcalendarUrl: the tag argument is the keyword object (`TagArg`), not its string form as `reverse` would render it.
- Feeds.EventsFeed.constructor: the title and description of a private feed are never assigned, so `title()` would raise AttributeError; the model leaves them `None`.
- Feeds.EventsFeed.constructor: the events-page lookup is an argument (`Option<Page>`); `Feeds.EventsPage` models the `get` with DoesNotExist caught.
- EventTags.EventMonths: the source appends the very dict objects of `date_dicts` to `month_dicts`, so setting `event_count` also changes the first matching entry of `date_dicts`. Each count is taken before its own entry changes, and entries already changed hold other months, so the counts are those of the unchanged keys; the model counts on the unchanged keys and does not model the aliasing.
- Views.Select: `tag`, `location` and `username` are looked up whenever they are given, "" included (the view tests `is not None`), while the feed ignores a blank value (`Feeds.Given`).
