/**
 * The occurrence search of backend/src/routes/occurrences.js (GET /): the
 * query-string parameters become a filter with up to three keys, the store
 * selects the matching documents and orders them newest first, and any
 * exception becomes a 500 reply.
 *
 * The store is a sequence of documents; `parse` stands for parseFloat and
 * `dist` for the store's great-circle distance in metres between two
 * `[lng, lat]` pairs. Times are milliseconds.
 */
module OccurrenceRoute {
  import opened Base
  import opened OccurrenceModel

  /** The destructured `req.query`: each parameter is a string or absent. */
  datatype Params = Params(
    kind: Option<string>,
    period: Option<string>,
    centerLat: Option<string>,
    centerLng: Option<string>,
    radius: Option<string>)

  /** A request without any query parameter. */
  const NoParams := Params(None, None, None, None, None)

  const HourMs: int := 3_600_000
  const DayMs: int := 24 * HourMs

  const SearchFailedMessage := "Erro ao buscar ocorrências."

  /** JavaScript truthiness of a query parameter: present and not the empty string. */
  predicate Given(v: Option<string>)
  {
    v.Some? && v.value != ""
  }

  /** The three parameters the geographic constraint needs, all truthy. */
  predicate GeoGiven(p: Params)
  {
    Given(p.centerLat) && Given(p.centerLng) && Given(p.radius)
  }

  /** The period tokens the switch recognises. */
  predicate KnownPeriod(period: Option<string>)
  {
    period == Some("24h") || period == Some("7d") || period == Some("30d")
  }

  /** The `$near` operator: a GeoJSON centre `[lng, lat]` and `$maxDistance` in metres. */
  datatype Near = Near(geometryKind: string, coordinates: seq<real>, maxDistance: real)

  /** The filter object: `type`, `createdAt: { $gte }` and `location: { $near }`, each possibly absent. */
  datatype Filter = Filter(kind: Option<string>, createdAtGte: Option<int>, location: Option<Near>)

  /** The empty filter `{}`. */
  const MatchAll := Filter(None, None, None)

  /** The `dateFrom` the switch computes for a truthy period; None for the `default` branch. */
  function Cutoff(period: string, now: int): (from: Option<int>)
  {
    if period == "24h" then Some(now - 24 * HourMs)
    else if period == "7d" then Some(now - 7 * DayMs)
    else if period == "30d" then Some(now - 30 * DayMs)
    else None
  }

  /** The filter built from the parameters, with one `now` for the whole request. */
  function FilterFor(p: Params, now: int, parse: string -> real): (f: Filter)
    ensures f.kind.Some? <==> Given(p.kind)
    ensures f.kind.Some? ==> f.kind == p.kind
    ensures f.createdAtGte.Some? <==> KnownPeriod(p.period)
    ensures p.period == Some("24h") ==> f.createdAtGte == Some(now - 24 * HourMs)
    ensures p.period == Some("7d") ==> f.createdAtGte == Some(now - 7 * DayMs)
    ensures p.period == Some("30d") ==> f.createdAtGte == Some(now - 30 * DayMs)
    ensures f.location.Some? <==> GeoGiven(p)
    ensures f.location.Some? ==>
              f.location.value == Near(PointKind,
                                       [parse(p.centerLng.value), parse(p.centerLat.value)],
                                       parse(p.radius.value) * 1000.0)
  {
    Filter(
      if Given(p.kind) then p.kind else None,
      if Given(p.period) then Cutoff(p.period.value, now) else None,
      if GeoGiven(p) then
        Some(Near(PointKind,
                  [parse(p.centerLng.value), parse(p.centerLat.value)],
                  parse(p.radius.value) * 1000.0))
      else None)
  }

  /** The handler's construction of `filter`, one key at a time, with `dateFrom` set by the switch. */
  method BuildFilter(p: Params, now: int, parse: string -> real) returns (f: Filter)
    ensures f == FilterFor(p, now, parse)
  {
    f := MatchAll;
    if Given(p.kind) {
      f := f.(kind := p.kind);
    }
    if Given(p.period) {
      var dateFrom: Option<int> := Some(now);
      match p.period.value {
        case "24h" => dateFrom := Some(dateFrom.value - 24 * HourMs);
        case "7d" => dateFrom := Some(dateFrom.value - 7 * DayMs);
        case "30d" => dateFrom := Some(dateFrom.value - 30 * DayMs);
        case _ => dateFrom := None;
      }
      if dateFrom.Some? {
        f := f.(createdAtGte := dateFrom);
      }
    }
    if Given(p.centerLat) && Given(p.centerLng) && Given(p.radius) {
      var centre := [parse(p.centerLng.value), parse(p.centerLat.value)];
      f := f.(location := Some(Near(PointKind, centre, parse(p.radius.value) * 1000.0)));
    }
  }

  /** How the store evaluates a filter on one document: every key present must hold. */
  predicate Matches(f: Filter, o: Occurrence, dist: (seq<real>, seq<real>) -> real)
  {
    && (f.kind.Some? ==> o.kind == f.kind.value)
    && (f.createdAtGte.Some? ==> o.createdAt >= f.createdAtGte.value)
    && (f.location.Some? ==>
          dist(f.location.value.coordinates, o.location.coordinates) <= f.location.value.maxDistance)
  }

  // Each axis of the search, stated on the parameters themselves.

  /** A truthy `type` admits exactly the documents of that type. */
  predicate KindAdmits(p: Params, o: Occurrence)
  {
    Given(p.kind) ==> o.kind == p.kind.value
  }

  /** A recognised period admits the documents created within its trailing window, bounds included. */
  predicate PeriodAdmits(p: Params, now: int, o: Occurrence)
  {
    && (p.period == Some("24h") ==> now - o.createdAt <= 24 * HourMs)
    && (p.period == Some("7d") ==> now - o.createdAt <= 7 * DayMs)
    && (p.period == Some("30d") ==> now - o.createdAt <= 30 * DayMs)
  }

  /** A complete geographic triple admits the documents within `radius` kilometres of (centerLng, centerLat). */
  predicate GeoAdmits(p: Params, parse: string -> real, dist: (seq<real>, seq<real>) -> real, o: Occurrence)
  {
    GeoGiven(p) ==>
      dist([parse(p.centerLng.value), parse(p.centerLat.value)], o.location.coordinates) / 1000.0
      <= parse(p.radius.value)
  }

  /** The filter is the conjunction of the three axes; none of them overrides another. */
  lemma MatchesByAxis(p: Params, now: int, parse: string -> real,
                      dist: (seq<real>, seq<real>) -> real, o: Occurrence)
    ensures Matches(FilterFor(p, now, parse), o, dist) <==>
              KindAdmits(p, o) && PeriodAdmits(p, now, o) && GeoAdmits(p, parse, dist, o)
  {
  }

  /** The documents of `s` that the filter matches, in store order. */
  function Select(s: seq<Occurrence>, f: Filter, dist: (seq<real>, seq<real>) -> real): seq<Occurrence>
  {
    if s == [] then []
    else (if Matches(f, s[0], dist) then [s[0]] else []) + Select(s[1..], f, dist)
  }

  /** Selection keeps every matching copy of a document and drops every other one. */
  lemma {:induction false} SelectCounts(s: seq<Occurrence>, f: Filter, dist: (seq<real>, seq<real>) -> real)
    ensures forall o :: multiset(Select(s, f, dist))[o] == if Matches(f, o, dist) then multiset(s)[o] else 0
  {
    if s != [] {
      SelectCounts(s[1..], f, dist);
      assert s == [s[0]] + s[1..];
    }
  }

  /** The empty filter selects the whole store. */
  lemma {:induction false} SelectAll(s: seq<Occurrence>, dist: (seq<real>, seq<real>) -> real)
    ensures Select(s, MatchAll, dist) == s
  {
    if s != [] {
      SelectAll(s[1..], dist);
      assert s == [s[0]] + s[1..];
    }
  }

  /** `sort({ createdAt: -1 })`: non-increasing creation time. */
  predicate NewestFirst(s: seq<Occurrence>)
  {
    forall i, j :: 0 <= i < j < |s| ==> s[i].createdAt >= s[j].createdAt
  }

  /** Places `o` before the first document that is not newer than it. */
  function Insert(o: Occurrence, s: seq<Occurrence>): seq<Occurrence>
  {
    if s == [] || o.createdAt >= s[0].createdAt then [o] + s
    else [s[0]] + Insert(o, s[1..])
  }

  /** The store's ordering of a result set, newest first; the order of equal times is not specified by the source. */
  function SortNewestFirst(s: seq<Occurrence>): seq<Occurrence>
  {
    if s == [] then [] else Insert(s[0], SortNewestFirst(s[1..]))
  }

  /** No document of `s` is newer than `t`. */
  predicate NoneNewerThan(s: seq<Occurrence>, t: int)
  {
    forall k :: 0 <= k < |s| ==> s[k].createdAt <= t
  }

  lemma {:induction false} InsertNoneNewer(o: Occurrence, s: seq<Occurrence>, t: int)
    requires NoneNewerThan(s, t) && o.createdAt <= t
    ensures NoneNewerThan(Insert(o, s), t)
  {
    if s != [] && o.createdAt < s[0].createdAt {
      InsertNoneNewer(o, s[1..], t);
    }
  }

  lemma {:induction false} InsertOrdered(o: Occurrence, s: seq<Occurrence>)
    requires NewestFirst(s)
    ensures NewestFirst(Insert(o, s))
  {
    if s != [] && o.createdAt < s[0].createdAt {
      InsertOrdered(o, s[1..]);
      InsertNoneNewer(o, s[1..], s[0].createdAt);
    }
  }

  lemma {:induction false} InsertCounts(o: Occurrence, s: seq<Occurrence>)
    ensures multiset(Insert(o, s)) == multiset(s) + multiset{o}
  {
    if s != [] && o.createdAt < s[0].createdAt {
      InsertCounts(o, s[1..]);
      assert s == [s[0]] + s[1..];
    }
  }

  /** Sorting returns the same documents, newest first. */
  lemma {:induction false} SortOrdered(s: seq<Occurrence>)
    ensures NewestFirst(SortNewestFirst(s))
    ensures multiset(SortNewestFirst(s)) == multiset(s)
  {
    if s != [] {
      SortOrdered(s[1..]);
      InsertOrdered(s[0], SortNewestFirst(s[1..]));
      InsertCounts(s[0], SortNewestFirst(s[1..]));
      assert s == [s[0]] + s[1..];
    }
  }

  /** What `Occurrence.find(filter).sort({ createdAt: -1 })` returns. */
  function Answer(store: seq<Occurrence>, f: Filter, dist: (seq<real>, seq<real>) -> real): seq<Occurrence>
  {
    SortNewestFirst(Select(store, f, dist))
  }

  /**
   * The search contract: the answer is a permutation of the matching
   * documents, newest first, and a document is in it exactly when it is in
   * the store and passes every axis that the parameters switch on.
   */
  lemma SearchContract(p: Params, now: int, parse: string -> real,
                       dist: (seq<real>, seq<real>) -> real, store: seq<Occurrence>)
    ensures NewestFirst(Answer(store, FilterFor(p, now, parse), dist))
    ensures multiset(Answer(store, FilterFor(p, now, parse), dist))
            == multiset(Select(store, FilterFor(p, now, parse), dist))
    ensures forall o :: o in Answer(store, FilterFor(p, now, parse), dist) <==>
              o in store && KindAdmits(p, o) && PeriodAdmits(p, now, o) && GeoAdmits(p, parse, dist, o)
  {
    var f := FilterFor(p, now, parse);
    SortOrdered(Select(store, f, dist));
    SelectCounts(store, f, dist);
    forall o ensures o in Answer(store, f, dist) <==>
                       o in store && KindAdmits(p, o) && PeriodAdmits(p, now, o) && GeoAdmits(p, parse, dist, o) {
      MatchesByAxis(p, now, parse, dist, o);
      assert o in Answer(store, f, dist) <==> o in multiset(Select(store, f, dist));
    }
  }

  /** Without parameters the reply is the whole store, newest first. */
  lemma NoParamsAnswersAll(now: int, parse: string -> real,
                           dist: (seq<real>, seq<real>) -> real, store: seq<Occurrence>)
    ensures FilterFor(NoParams, now, parse) == MatchAll
    ensures NewestFirst(Answer(store, MatchAll, dist))
    ensures multiset(Answer(store, MatchAll, dist)) == multiset(store)
  {
    SelectAll(store, dist);
    SortOrdered(store);
  }

  /** An empty or unrecognised period gives the same filter as no period at all. */
  lemma UnknownPeriodIsAbsent(p: Params, now: int, parse: string -> real)
    requires !KnownPeriod(p.period)
    ensures FilterFor(p, now, parse) == FilterFor(p.(period := None), now, parse)
  {
  }

  /** An empty `type` gives the same filter as no `type` at all. */
  lemma EmptyKindIsAbsent(p: Params, now: int, parse: string -> real)
    requires !Given(p.kind)
    ensures FilterFor(p, now, parse) == FilterFor(p.(kind := None), now, parse)
  {
  }

  /** Missing any one of the three geographic parameters gives the same filter as missing all three. */
  lemma PartialGeoIsAbsent(p: Params, now: int, parse: string -> real)
    requires !GeoGiven(p)
    ensures FilterFor(p, now, parse).location.None?
    ensures FilterFor(p, now, parse) == FilterFor(p.(centerLat := None, centerLng := None, radius := None), now, parse)
  {
  }

  /** The 24h cutoff is inclusive: one hour ago and exactly 24 hours ago pass, 25 hours ago does not. */
  lemma DayWindowBounds(p: Params, now: int, parse: string -> real,
                        dist: (seq<real>, seq<real>) -> real, o: Occurrence)
    requires p == NoParams.(period := Some("24h"))
    ensures o.createdAt == now - HourMs ==> Matches(FilterFor(p, now, parse), o, dist)
    ensures o.createdAt == now - 24 * HourMs ==> Matches(FilterFor(p, now, parse), o, dist)
    ensures o.createdAt == now - 25 * HourMs ==> !Matches(FilterFor(p, now, parse), o, dist)
  {
  }

  /** The JSON body of a reply: the documents, or `{ message }`. */
  datatype Body = Records(items: seq<Occurrence>) | Message(text: string)

  datatype Reply = Reply(status: int, body: Body)

  /**
   * The GET / handler. `findThrows` stands for any exception raised while the
   * store runs the query (a failed connection, a value the store rejects);
   * the catch turns it into a 500 with a fixed message.
   */
  method Search(p: Params, now: int, parse: string -> real,
                dist: (seq<real>, seq<real>) -> real, store: seq<Occurrence>, findThrows: bool)
    returns (reply: Reply)
    ensures findThrows ==> reply == Reply(500, Message(SearchFailedMessage))
    ensures !findThrows ==>
              && reply.status == 200 && reply.body.Records?
              && multiset(reply.body.items) == multiset(Select(store, FilterFor(p, now, parse), dist))
    ensures !findThrows ==> NewestFirst(reply.body.items)
    ensures !findThrows ==> forall o :: o in reply.body.items <==>
              o in store && KindAdmits(p, o) && PeriodAdmits(p, now, o) && GeoAdmits(p, parse, dist, o)
  {
    var filter := BuildFilter(p, now, parse);
    if findThrows {
      reply := Reply(500, Message(SearchFailedMessage));
    } else {
      SearchContract(p, now, parse, dist, store);
      reply := Reply(200, Records(Answer(store, filter, dist)));
    }
  }
}
