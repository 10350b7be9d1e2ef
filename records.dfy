/**
 * The persisted records the core reads (events, keywords, locations, users) and
 * the query-set operations the views, feeds and template tags compose: filtering,
 * slicing, single-object lookup, ordering by start, and the two time windows.
 */
module Records {
  import opened Wrappers
  import opened Chrono

  datatype Keyword = Keyword(id: nat, title: string, slug: string)

  /** A user; `fullName` is what `get_full_name()` returns ("" when unset). */
  datatype User = User(id: nat, username: string, fullName: string)

  /** A stored event location, as an event's foreign key sees it. */
  datatype Location = Location(id: nat, title: string, slug: string,
                               address: string, mappableLocation: string)

  /** An event row; `keywords` holds the ids of the keywords assigned to it. */
  datatype Event = Event(id: nat, title: string, slug: string,
                         start: DateTime, end: Option<DateTime>,
                         location: Option<Location>, keywords: set<nat>,
                         user: User, publishDate: DateTime)

  /** The tables, each in storage order. */
  datatype Db = Db(events: seq<Event>, keywords: seq<Keyword>,
                   locations: seq<Location>, users: seq<User>)

  /** The exceptions a lookup can raise out of a view. */
  datatype Error = Http404 | MultipleObjectsReturned

  // ---------------------------------------------------------------- query sets

  /** `.filter(p)`: the rows satisfying `p`, in their order. */
  function Filter<T(!new)>(s: seq<T>, p: T -> bool): (r: seq<T>)
    ensures |r| <= |s|
    ensures forall x :: x in r <==> x in s && p(x)
    decreases |s|
  {
    if s == [] then [] else (if p(s[0]) then [s[0]] else []) + Filter(s[1..], p)
  }

  /**
   * `.filter` keeps the rows in their order: filtering a concatenation filters
   * each part, and a single row is kept exactly when it satisfies the condition.
   */
  lemma {:induction false} FilterAppend<T(!new)>(a: seq<T>, b: seq<T>, p: T -> bool, x: T)
    ensures Filter(a + b, p) == Filter(a, p) + Filter(b, p)
    ensures Filter([x], p) == if p(x) then [x] else []
    decreases |a|
  {
    if a == [] {
      assert a + b == b;
    } else {
      assert (a + b)[0] == a[0] && (a + b)[1..] == a[1..] + b;
      FilterAppend(a[1..], b, p, x);
    }
    assert [x][1..] == [];
  }

  /** Filtering twice is filtering once by the conjunction. */
  lemma {:induction false} FilterFilter<T(!new)>(s: seq<T>, p: T -> bool, q: T -> bool, pq: T -> bool)
    requires forall x :: pq(x) == (p(x) && q(x))
    ensures Filter(Filter(s, p), q) == Filter(s, pq)
    decreases |s|
  {
    if s != [] {
      FilterFilter(s[1..], p, q, pq);
      var rest := Filter(s[1..], p);
      if p(s[0]) {
        assert Filter(s, p) == [s[0]] + rest;
        assert ([s[0]] + rest)[1..] == rest;
      } else {
        assert Filter(s, p) == rest;
      }
    }
  }

  /** Filters that agree on every row select the same rows. */
  lemma {:induction false} FilterAgree<T(!new)>(s: seq<T>, p: T -> bool, q: T -> bool)
    requires forall x :: x in s ==> p(x) == q(x)
    ensures Filter(s, p) == Filter(s, q)
    decreases |s|
  {
    if s != [] { FilterAgree(s[1..], p, q); }
  }

  /** A filter every row passes keeps the rows as they are. */
  lemma {:induction false} FilterAll<T(!new)>(s: seq<T>, p: T -> bool)
    requires forall x :: x in s ==> p(x)
    ensures Filter(s, p) == s
    decreases |s|
  {
    if s != [] {
      FilterAll(s[1..], p);
      assert s == [s[0]] + s[1..];
    }
  }

  /** `qs[:n]`: the first `n` rows, or all of them when there are fewer. */
  function Take<T>(s: seq<T>, n: nat): (r: seq<T>)
    ensures |r| == if n < |s| then n else |s|
    ensures r == s[..|r|]
  {
    if n < |s| then s[..n] else s
  }

  /** What `Model.objects.get(...)` finds. */
  datatype Lookup<T> = Missing | Found(obj: T) | Ambiguous

  /** `.get(p)`: the single row satisfying `p`; DoesNotExist or MultipleObjectsReturned otherwise. */
  function Get<T(!new)>(rows: seq<T>, p: T -> bool): (r: Lookup<T>)
    ensures r.Missing? <==> forall x :: x in rows ==> !p(x)
    ensures r.Found? ==> r.obj in rows && p(r.obj) && Filter(rows, p) == [r.obj]
    ensures r.Ambiguous? ==> |Filter(rows, p)| >= 2
  {
    var m := Filter(rows, p);
    assert |m| > 0 ==> m[0] in m;
    if |m| == 0 then Missing else if |m| == 1 then Found(m[0]) else Ambiguous
  }

  /** `get_object_or_404`: a missing row becomes Http404; several rows still raise. */
  function GetOr404<T(!new)>(rows: seq<T>, p: T -> bool): (r: Result<T, Error>)
    ensures r == Failure(Http404) <==> forall x :: x in rows ==> !p(x)
    ensures r.Success? ==> r.value in rows && p(r.value)
    ensures |Filter(rows, p)| == 1 ==> r == Success(Filter(rows, p)[0])
    ensures |Filter(rows, p)| >= 2 ==> r == Failure(MultipleObjectsReturned)
  {
    match Get(rows, p)
    case Missing => Failure(Http404)
    case Found(x) => Success(x)
    case Ambiguous => Failure(MultipleObjectsReturned)
  }

  // ---------------------------------------------------------------- ordering

  /** `a` may precede `b` under `order_by("start")` (ascending) or `("-start",)`. */
  predicate InOrder(a: Event, b: Event, ascending: bool) {
    if ascending then !Before(b.start, a.start) else !Before(a.start, b.start)
  }

  predicate SortedByStart(s: seq<Event>, ascending: bool) {
    forall i, j :: 0 <= i < j < |s| ==> InOrder(s[i], s[j], ascending)
  }

  lemma InOrderTotal(a: Event, b: Event, ascending: bool)
    ensures InOrder(a, b, ascending) || InOrder(b, a, ascending)
  {
    BeforeIsStrictTotalOrder(a.start, b.start, a.start);
    BeforeIsStrictTotalOrder(b.start, a.start, b.start);
  }

  lemma InOrderTransitive(a: Event, b: Event, c: Event, ascending: bool)
    requires InOrder(a, b, ascending) && InOrder(b, c, ascending)
    ensures InOrder(a, c, ascending)
  {
    BeforeIsStrictTotalOrder(a.start, b.start, c.start);
    BeforeIsStrictTotalOrder(b.start, c.start, a.start);
    BeforeIsStrictTotalOrder(c.start, a.start, b.start);
    BeforeIsStrictTotalOrder(a.start, c.start, b.start);
    BeforeIsStrictTotalOrder(c.start, b.start, a.start);
    BeforeIsStrictTotalOrder(b.start, a.start, c.start);
  }

  /** A row that may precede every row of a sorted sequence may be put in front of it. */
  lemma PrependSorted(x: Event, t: seq<Event>, ascending: bool)
    requires SortedByStart(t, ascending)
    requires forall y :: y in t ==> InOrder(x, y, ascending)
    ensures SortedByStart([x] + t, ascending)
  {
    var r := [x] + t;
    forall i, j | 0 <= i < j < |r| ensures InOrder(r[i], r[j], ascending) {
      assert r[j] == t[j - 1];
      if i > 0 { assert r[i] == t[i - 1]; }
      else { assert t[j - 1] in t; }
    }
  }

  /** A row that may precede the head of a sorted sequence may precede all of it. */
  lemma PrecedesSorted(e: Event, s: seq<Event>, ascending: bool)
    requires SortedByStart(s, ascending) && s != [] && InOrder(e, s[0], ascending)
    ensures forall y :: y in s ==> InOrder(e, y, ascending)
  {
    forall y | y in s ensures InOrder(e, y, ascending) {
      var j :| 0 <= j < |s| && s[j] == y;
      if j > 0 { InOrderTransitive(e, s[0], s[j], ascending); }
    }
  }

  /**
   * The head of a sorted sequence may precede every row of the rest with `e`
   * inserted, when `e` may not precede it.
   */
  lemma HeadPrecedesInserted(e: Event, s: seq<Event>, t: seq<Event>, ascending: bool)
    requires SortedByStart(s, ascending) && s != [] && !InOrder(e, s[0], ascending)
    requires multiset(t) == multiset(s[1..]) + multiset{e}
    ensures forall x :: x in t ==> InOrder(s[0], x, ascending)
  {
    forall x | x in t ensures InOrder(s[0], x, ascending) {
      assert x in multiset(t);
      if x == e { InOrderTotal(e, s[0], ascending); }
      else {
        assert x in multiset(s[1..]);
        var j :| 0 <= j < |s[1..]| && s[1..][j] == x;
        assert s[j + 1] == x;
      }
    }
  }

  /** Insert `e` before the first row it may precede (so earlier rows stay first among equals). */
  function Insert(e: Event, s: seq<Event>, ascending: bool): (r: seq<Event>)
    requires SortedByStart(s, ascending)
    ensures multiset(r) == multiset(s) + multiset{e}
    ensures SortedByStart(r, ascending)
    decreases |s|
  {
    if s == [] then [e]
    else if InOrder(e, s[0], ascending) then
      PrecedesSorted(e, s, ascending);
      PrependSorted(e, s, ascending);
      [e] + s
    else
      var t := Insert(e, s[1..], ascending);
      assert s == [s[0]] + s[1..];
      HeadPrecedesInserted(e, s, t, ascending);
      PrependSorted(s[0], t, ascending);
      [s[0]] + t
  }

  /** The rows ordered by start, ties kept in storage order. */
  function SortByStart(s: seq<Event>, ascending: bool): (r: seq<Event>)
    ensures multiset(r) == multiset(s)
    ensures SortedByStart(r, ascending)
    decreases |s|
  {
    if s == [] then []
    else
      assert s == [s[0]] + s[1..];
      Insert(s[0], SortByStart(s[1..], ascending), ascending)
  }

  /** Ordering keeps exactly the rows it was given. */
  lemma SortByStartMembers(s: seq<Event>, ascending: bool, e: Event)
    ensures e in SortByStart(s, ascending) <==> e in s
  {
    assert e in SortByStart(s, ascending) <==> e in multiset(SortByStart(s, ascending));
    assert e in s <==> e in multiset(s);
  }

  // ---------------------------------------------------------------- windows and targets

  /** `Q(start__gt=now) | Q(end__gt=now)`; a NULL end compares false. */
  predicate UpcomingOrOngoing(e: Event, now: DateTime) {
    Before(now, e.start) || (e.end.Some? && Before(now, e.end.value))
  }

  /** `Q(start__lt=now) | Q(end__lt=now)`; a NULL end compares false. */
  predicate StartedOrEnded(e: Event, now: DateTime) {
    Before(e.start, now) || (e.end.Some? && Before(e.end.value, now))
  }

  /** The resolved filter targets of a query; each absent one does not narrow it. */
  datatype Targets = Targets(tag: Option<Keyword>, year: Option<nat>, month: Option<nat>,
                             location: Option<Location>, author: Option<User>)

  /** The conjunction of the filters a query applies for its targets. */
  predicate Matches(e: Event, t: Targets) {
    (t.tag.Some? ==> t.tag.value.id in e.keywords)
    && (t.year.Some? ==> e.start.year == t.year.value)
    && (t.month.Some? ==> e.start.month == t.month.value)
    && (t.location.Some? ==> e.location.Some? && e.location.value.id == t.location.value.id)
    && (t.author.Some? ==> e.user.id == t.author.value.id)
  }

  // ---------------------------------------------------------------- target lookup

  /** `get_object_or_404(Keyword, slug=tag)` when a tag is given. */
  function FindKeyword(db: Db, slug: Option<string>): Result<Option<Keyword>, Error> {
    if slug.None? then Success(None)
    else match GetOr404(db.keywords, (k: Keyword) => k.slug == slug.value)
      case Success(k) => Success(Some(k))
      case Failure(err) => Failure(err)
  }

  /** `get_object_or_404(EventLocation, slug=location)` when a location is given. */
  function FindLocation(db: Db, slug: Option<string>): Result<Option<Location>, Error> {
    if slug.None? then Success(None)
    else match GetOr404(db.locations, (l: Location) => l.slug == slug.value)
      case Success(l) => Success(Some(l))
      case Failure(err) => Failure(err)
  }

  /** `get_object_or_404(User, username=username)` when a username is given. */
  function FindUser(db: Db, username: Option<string>): Result<Option<User>, Error> {
    if username.None? then Success(None)
    else match GetOr404(db.users, (u: User) => u.username == username.value)
      case Success(u) => Success(Some(u))
      case Failure(err) => Failure(err)
  }

  // ---------------------------------------------------------------- narrowing a query set

  /** The rows of a query set that match every target. */
  function Matching(base: seq<Event>, t: Targets): seq<Event> {
    Filter(base, (e: Event) => Matches(e, t))
  }

  /** Narrowing a query by one more target is filtering by the enlarged conjunction. */
  lemma Narrow(base: seq<Event>, t: Targets, t': Targets, q: Event -> bool)
    requires forall e :: Matches(e, t') == (Matches(e, t) && q(e))
    ensures Filter(Matching(base, t), q) == Matching(base, t')
  {
    FilterFilter(base, (e: Event) => Matches(e, t), q, (e: Event) => Matches(e, t'));
  }

  /** One `events = events.filter(q)` step, tracked as the targets applied so far. */
  method NarrowBy(base: seq<Event>, events: seq<Event>, t: Targets, t': Targets, q: Event -> bool)
    returns (narrowed: seq<Event>)
    requires events == Matching(base, t)
    requires forall e :: Matches(e, t') == (Matches(e, t) && q(e))
    ensures narrowed == Matching(base, t')
  {
    Narrow(base, t, t', q);
    narrowed := Filter(events, q);
  }
}
