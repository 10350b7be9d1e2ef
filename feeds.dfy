/**
 * The RSS and Atom feeds of events: the feed object's public/title state, set
 * once from the events page, and the items it lists, narrowed by the optional
 * tag, location and author and cut at the RSS limit.
 */
module Feeds {
  import opened Wrappers
  import opened Chrono
  import opened Records

  /** The two feed classes: `EventsRSS` and its Atom subclass `EventsAtom`. */
  datatype FeedFormat = Rss | Atom

  /** A published Mezzanine page, as the feed reads it. */
  datatype Page = Page(slug: string, title: string, description: string, loginRequired: bool)

  /**
   * `Page.objects.published().get(slug=EVENT_SLUG)` with DoesNotExist caught: the
   * events page when there is one, none when there is none; several raise.
   */
  function EventsPage(pages: seq<Page>, eventSlug: string): (r: Result<Option<Page>, Error>)
    ensures r == Success(None) <==> forall p :: p in pages ==> p.slug != eventSlug
    ensures r.Success? && r.value.Some? ==> r.value.value in pages && r.value.value.slug == eventSlug
    ensures r.Failure? ==> r.error == MultipleObjectsReturned
    ensures |Filter(pages, (p: Page) => p.slug == eventSlug)| == 1 ==>
              r == Success(Some(Filter(pages, (p: Page) => p.slug == eventSlug)[0]))
    ensures |Filter(pages, (p: Page) => p.slug == eventSlug)| >= 2 ==> r == Failure(MultipleObjectsReturned)
  {
    match Get(pages, (p: Page) => p.slug == eventSlug)
    case Missing => Success(None)
    case Found(p) => Success(Some(p))
    case Ambiguous => Failure(MultipleObjectsReturned)
  }

  /** A target keyword argument as `if self.tag:` reads it: absent and "" do not filter. */
  function Given(arg: Option<string>): (r: Option<string>)
    ensures r.Some? <==> arg.Some? && arg.value != ""
    ensures r.Some? ==> r == arg
  {
    if arg.Some? && arg.value != "" then arg else None
  }

  /**
   * The targets of a feed, looked up in the order tag, location, author; each
   * given one that names nothing raises Http404.
   */
  function FeedTargets(db: Db, tag: Option<string>, location: Option<string>, username: Option<string>)
    : Result<Targets, Error>
  {
    match FindKeyword(db, Given(tag))
    case Failure(err) => Failure(err)
    case Success(k) =>
      match FindLocation(db, Given(location))
      case Failure(err) => Failure(err)
      case Success(l) =>
        match FindUser(db, Given(username))
        case Failure(err) => Failure(err)
        case Success(u) => Success(Targets(k, None, None, l, u))
  }

  /** `events[:EVENT_RSS_LIMIT]` when the limit is set, all events when it is None. */
  function Limit(s: seq<Event>, limit: Option<nat>): seq<Event> {
    if limit.None? then s else Take(s, limit.value)
  }

  /**
   * What `items` returns: nothing for a private feed; otherwise the published
   * events matching the targets, newest start first, cut at the limit.
   */
  function FeedItems(isPublic: bool, tag: Option<string>, location: Option<string>, username: Option<string>,
                     db: Db, published: Event -> bool, limit: Option<nat>): Result<seq<Event>, Error>
  {
    if !isPublic then Success([])
    else match FeedTargets(db, tag, location, username)
      case Failure(err) => Failure(err)
      case Success(t) => Success(Limit(SortByStart(Matching(Filter(db.events, published), t), false), limit))
  }

  /** An events feed; `title` and `description` stay unset (None) on a private feed. */
  class EventsFeed {
    const format: FeedFormat
    var tag: Option<string>
    var location: Option<string>
    var username: Option<string>
    var isPublic: bool
    var title: Option<string>
    var description: Option<string>

    /**
     * `EventsRSS.__init__` once the events page has been looked up: the feed is
     * public unless that page exists and requires a login; a public feed takes
     * the page's title and plain-text description, or the site's title and tagline
     * when there is no page.
     */
    constructor (format: FeedFormat, tag: Option<string>, location: Option<string>, username: Option<string>,
                 page: Option<Page>, siteTitle: string, siteTagline: string, stripTags: string -> string)
      ensures this.format == format
      ensures this.tag == tag && this.location == location && this.username == username
      ensures isPublic <==> page.None? || !page.value.loginRequired
      ensures !isPublic ==> title.None? && description.None?
      ensures isPublic && page.Some? ==>
                title == Some(page.value.title + " | " + siteTitle) &&
                description == Some(stripTags(page.value.description))
      ensures isPublic && page.None? ==> title == Some(siteTitle) && description == Some(siteTagline)
    {
      this.format := format;
      this.tag := tag;
      this.location := location;
      this.username := username;
      new;
      isPublic := true;
      if page.Some? {
        isPublic := !page.value.loginRequired;
      }
      title := None;
      description := None;
      if isPublic {
        if page.Some? {
          title := Some(page.value.title + " | " + siteTitle);
          description := Some(stripTags(page.value.description));
        } else {
          title := Some(siteTitle);
          description := Some(siteTagline);
        }
      }
    }

    /**
     * `items`: the published events narrowed by each given target, in the model's
     * default order (descending start), then cut at `EVENT_RSS_LIMIT`.
     */
    method Items(db: Db, published: Event -> bool, rssLimit: Option<nat>) returns (r: Result<seq<Event>, Error>)
      ensures r == FeedItems(isPublic, tag, location, username, db, published, rssLimit)
    {
      if !isPublic {
        return Success([]);
      }
      var base := Filter(db.events, published);
      var events := base;
      var t := Targets(None, None, None, None, None);
      FilterAll(base, (e: Event) => Matches(e, t));
      var keyword := FindKeyword(db, Given(tag));
      if keyword.Failure? {
        return Failure(keyword.error);
      }
      if keyword.value.Some? {
        var k := keyword.value.value;
        events := NarrowBy(base, events, t, t.(tag := Some(k)), (e: Event) => k.id in e.keywords);
        t := t.(tag := Some(k));
      }
      var place := FindLocation(db, Given(location));
      if place.Failure? {
        return Failure(place.error);
      }
      if place.value.Some? {
        var l := place.value.value;
        events := NarrowBy(base, events, t, t.(location := Some(l)),
                           (e: Event) => e.location.Some? && e.location.value.id == l.id);
        t := t.(location := Some(l));
      }
      var author := FindUser(db, Given(username));
      if author.Failure? {
        return Failure(author.error);
      }
      if author.value.Some? {
        var u := author.value.value;
        events := NarrowBy(base, events, t, t.(author := Some(u)), (e: Event) => e.user.id == u.id);
        t := t.(author := Some(u));
      }
      assert t == Targets(keyword.value, None, None, place.value, author.value);
      events := SortByStart(events, false);
      if rssLimit.Some? {
        events := Take(events, rssLimit.value);
      }
      r := Success(events);
    }

    /** `EventsAtom.subtitle`: the description; the RSS feed has no subtitle. */
    function Subtitle(): (r: Option<string>)
      reads this
      ensures format == Atom ==> r == description
      ensures format == Rss ==> r.None?
    {
      if format == Atom then description else None
    }
  }

  /** `item_author_name`: the author's full name, or the username when that is blank. */
  function ItemAuthorName(item: Event): (r: string)
    ensures r == item.user.fullName || r == item.user.username
    ensures item.user.fullName != "" ==> r == item.user.fullName
    ensures r == "" ==> item.user.fullName == "" && item.user.username == ""
  {
    if item.user.fullName != "" then item.user.fullName else item.user.username
  }

  // ---------------------------------------------------------------- properties of the items

  /** A private feed lists nothing and never looks anything up. */
  lemma PrivateFeedIsEmpty(tag: Option<string>, location: Option<string>, username: Option<string>,
                           db: Db, published: Event -> bool, limit: Option<nat>)
    ensures FeedItems(false, tag, location, username, db, published, limit) == Success([])
  {
  }

  /** Cutting at a limit keeps a prefix; no limit keeps everything. */
  lemma LimitIsPrefix(s: seq<Event>, limit: Option<nat>, e: Event)
    ensures e in Limit(s, limit) ==> e in s
    ensures limit.None? ==> Limit(s, limit) == s
    ensures limit.Some? ==> |Limit(s, limit)| <= limit.value && Limit(s, limit) == s[..|Limit(s, limit)|]
    ensures limit.Some? && |Limit(s, limit)| < limit.value ==> Limit(s, limit) == s
  {
    if e in Limit(s, limit) && limit.Some? {
      var i :| 0 <= i < |Limit(s, limit)| && Limit(s, limit)[i] == e;
      assert s[i] == e;
    }
  }

  /**
   * A public feed's items are published events matching every given target, and
   * without a limit every such event is listed.
   */
  lemma FeedItemsAreConjunctive(tag: Option<string>, location: Option<string>, username: Option<string>,
                                db: Db, published: Event -> bool, limit: Option<nat>, t: Targets, e: Event)
    requires FeedTargets(db, tag, location, username) == Success(t)
    ensures FeedItems(true, tag, location, username, db, published, limit).Success?
    ensures e in FeedItems(true, tag, location, username, db, published, limit).value ==>
              e in db.events && published(e) && Matches(e, t)
    ensures limit.None? ==>
              (e in FeedItems(true, tag, location, username, db, published, limit).value <==>
               e in db.events && published(e) && Matches(e, t))
  {
    var chosen := Matching(Filter(db.events, published), t);
    var sorted := SortByStart(chosen, false);
    assert FeedItems(true, tag, location, username, db, published, limit).value == Limit(sorted, limit);
    LimitIsPrefix(sorted, limit, e);
    SortByStartMembers(chosen, false, e);
  }

  /**
   * With a limit of n the items are at most n and are the newest-first listing's
   * first rows; with no limit they are the whole listing.
   */
  lemma FeedItemsLimit(tag: Option<string>, location: Option<string>, username: Option<string>,
                       db: Db, published: Event -> bool, limit: Option<nat>, t: Targets)
    requires FeedTargets(db, tag, location, username) == Success(t)
    ensures var items := FeedItems(true, tag, location, username, db, published, limit).value;
            var listing := SortByStart(Matching(Filter(db.events, published), t), false);
            SortedByStart(listing, false) &&
            (limit.Some? ==> |items| <= limit.value && items == listing[..|items|] &&
                             (|items| < limit.value ==> items == listing)) &&
            (limit.None? ==> items == listing)
  {
  }

  /** A public feed raises exactly the error its target lookups raise. */
  lemma FeedItemsRaise(tag: Option<string>, location: Option<string>, username: Option<string>,
                       db: Db, published: Event -> bool, limit: Option<nat>)
    ensures FeedItems(true, tag, location, username, db, published, limit).Failure? <==>
            FeedTargets(db, tag, location, username).Failure?
    ensures FeedTargets(db, tag, location, username).Failure? ==>
              FeedItems(true, tag, location, username, db, published, limit).error ==
              FeedTargets(db, tag, location, username).error
  {
  }

  /**
   * A given tag, location or username that names nothing raises Http404 (an
   * earlier target may already have raised); a blank one is ignored.
   */
  lemma FeedMissingTargetRaises(db: Db, tag: Option<string>, location: Option<string>, username: Option<string>)
    ensures tag.Some? && tag.value != "" && (forall k :: k in db.keywords ==> k.slug != tag.value) ==>
              FeedTargets(db, tag, location, username) == Failure(Http404)
    ensures location.Some? && location.value != "" && (forall l :: l in db.locations ==> l.slug != location.value) ==>
              FeedTargets(db, tag, location, username).Failure?
    ensures username.Some? && username.value != "" && (forall u :: u in db.users ==> u.username != username.value) ==>
              FeedTargets(db, tag, location, username).Failure?
    ensures FindKeyword(db, Given(tag)).Success? &&
            location.Some? && location.value != "" && (forall l :: l in db.locations ==> l.slug != location.value) ==>
              FeedTargets(db, tag, location, username) == Failure(Http404)
    ensures FindKeyword(db, Given(tag)).Success? && FindLocation(db, Given(location)).Success? &&
            username.Some? && username.value != "" && (forall u :: u in db.users ==> u.username != username.value) ==>
              FeedTargets(db, tag, location, username) == Failure(Http404)
    ensures FeedTargets(db, Some(""), location, username) == FeedTargets(db, None, location, username)
  {
  }
}
