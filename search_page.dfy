/** The search results page (app/search/page.js): the search read from the
    URL, the trips the store returns for it, loading the outbound and return
    lists with their error handling, the seat-class labels and the moves to
    the booking page. */
module SearchPage {
  import opened Wrappers
  import opened Text
  import opened Sorting
  import opened Query
  import opened Entities
  import SearchForm

  const Scheduled := "scheduled"
  const RoundTripType := "round-trip"
  const OneWayType := "one-way"
  const BookingPath := "/booking"
  const LoadErrorMessage := "Erro ao carregar viagens. Por favor, tente novamente."

  /** The first and the last instant of a day, as the store compares
      departure times (the local midnight and 23:59:59.999 of the date). */
  datatype Window = Window(start: int, end: int)

  /** The search as the page reads it from its URL. */
  datatype SearchQuery = SearchQuery(
    origin: string,
    destination: string,
    date: string,
    returnDate: string,
    tripType: string)

  // ---------------------------------------------------------------------
  // The trip query

  /** `city.ilike.%needle%,province.ilike.%needle%`: the needle occurs in the
      city or in the province, ignoring case. */
  predicate PlaceMatches(city: string, province: string, needle: string) {
    ContainsIgnoringCase(city, needle) || ContainsIgnoringCase(province, needle)
  }

  /** A trip the query returns: it has a bus and that bus a company (the
      inner joins on buses and companies), it is scheduled, with a free seat,
      leaving from a place matching `origin` for one matching `destination`,
      departing inside the day, both ends included. */
  predicate Matches(t: Trip, origin: string, destination: string, day: Window) {
    && t.busCompany.Some?
    && t.status == Scheduled
    && t.availableSeats > 0
    && PlaceMatches(t.route.originCity, t.route.originProvince, origin)
    && PlaceMatches(t.route.destinationCity, t.route.destinationProvince, destination)
    && day.start <= t.departureTime <= day.end
  }

  /** The rows of `table` the query's filters keep, in table order. */
  function Matching(table: seq<Trip>, origin: string, destination: string, day: Window): (r: seq<Trip>)
    ensures |r| <= |table|
    ensures forall t :: t in r <==> t in table && Matches(t, origin, destination, day)
    ensures forall t :: multiset(r)[t] ==
                          if Matches(t, origin, destination, day) then multiset(table)[t] else 0
  {
    if table == [] then []
    else
      assert table == [table[0]] + table[1..];
      (if Matches(table[0], origin, destination, day) then [table[0]] else [])
      + Matching(table[1..], origin, destination, day)
  }

  function DepartureKey(t: Trip): int {
    t.departureTime
  }

  /** Why a search brought no list. */
  datatype FetchError = InvalidDate | StoreFailed

  /** fetchTrips: nothing without a query when a field is empty; an error
      when the date is not a date (`dayOf` gives its window, None for an
      invalid date) or the store fails; otherwise the matching trips by
      ascending departure. */
  function FetchTrips(origin: string, destination: string, date: string, table: seq<Trip>,
                      dayOf: string -> Option<Window>, storeOk: bool): Result<seq<Trip>, FetchError>
  {
    if origin == "" || destination == "" || date == "" then Ok([])
    else match dayOf(date)
      case None => Err(InvalidDate)
      case Some(day) =>
        if !storeOk then Err(StoreFailed)
        else Ok(SortBy(Matching(table, origin, destination, day), DepartureKey))
  }

  /** An empty field gives the empty list and asks nothing of the store. */
  lemma FetchTripsGuard(origin: string, destination: string, date: string, table: seq<Trip>,
                        dayOf: string -> Option<Window>, storeOk: bool)
    requires origin == "" || destination == "" || date == ""
    ensures FetchTrips(origin, destination, date, table, dayOf, storeOk) == Ok([])
  {
  }

  /** With every field filled in, the fetch fails exactly when the date is
      invalid or the store fails; otherwise it lists exactly the trips of
      the table that match, each as often as it occurs, by ascending
      departure time. */
  lemma FetchTripsResult(origin: string, destination: string, date: string, table: seq<Trip>,
                         dayOf: string -> Option<Window>, storeOk: bool)
    requires origin != "" && destination != "" && date != ""
    ensures var r := FetchTrips(origin, destination, date, table, dayOf, storeOk);
      && (r.Ok? <==> dayOf(date).Some? && storeOk)
      && (r.Ok? ==>
            && SortedBy(r.value, DepartureKey)
            && multiset(r.value) == multiset(Matching(table, origin, destination, dayOf(date).value))
            && (forall t :: multiset(r.value)[t] ==
                              if Matches(t, origin, destination, dayOf(date).value)
                              then multiset(table)[t] else 0)
            && forall t :: t in r.value <==> t in table && Matches(t, origin, destination, dayOf(date).value))
  {
    var r := FetchTrips(origin, destination, date, table, dayOf, storeOk);
    if r.Ok? {
      var m := Matching(table, origin, destination, dayOf(date).value);
      forall t
        ensures t in r.value <==> t in m
      {
        assert t in r.value <==> t in multiset(r.value);
        assert t in m <==> t in multiset(m);
      }
    }
  }

  // ---------------------------------------------------------------------
  // Reading the search from the URL

  /** `searchParams.get(key)?.trim() || ''` */
  function TrimmedParam(params: Params, key: string): string {
    Trim(Get(params, key).GetOr(""))
  }

  /** The fields of the search: places and dates trimmed, a missing or
      empty trip type read as one way. */
  function ReadSearch(params: Params): SearchQuery {
    var tripType := Get(params, "tripType").GetOr("");
    SearchQuery(
      TrimmedParam(params, "origin"),
      TrimmedParam(params, "destination"),
      TrimmedParam(params, "date"),
      TrimmedParam(params, "returnDate"),
      if tripType == "" then OneWayType else tripType)
  }

  /** `tripType === 'round-trip' && returnDate`. */
  predicate IsRoundTrip(q: SearchQuery) {
    q.tripType == RoundTripType && q.returnDate != ""
  }

  /** The search page reads back what the search form submitted: the
      trimmed places and dates, the trip type (one way when it was empty),
      and the trimmed return date only when the form sent one. */
  lemma ReadsFormSearch(origin: string, destination: string, date: string,
                        returnDate: string, tripType: string)
    requires '&' !in origin && '&' !in destination && '&' !in date
    requires '&' !in returnDate && '&' !in tripType
    ensures
      var params := SearchForm.SearchParams(origin, destination, date, returnDate, tripType);
      var url := SearchForm.SearchPath + "?" + Encode(params);
      var sent := tripType == RoundTripType && returnDate != "";
      ReadSearch(Decode(QueryOf(url))) == SearchQuery(
        Trim(origin), Trim(destination), Trim(date),
        if sent then Trim(returnDate) else "",
        if tripType == "" then OneWayType else tripType)
  {
    assert '?' !in SearchForm.SearchPath;
    FormQueryDecodes(SearchForm.SearchPath, origin, destination, date, returnDate, tripType);
    FormParamsRead(origin, destination, date, returnDate, tripType);
  }

  lemma FormQueryDecodes(path: string, origin: string, destination: string, date: string,
                         returnDate: string, tripType: string)
    requires '&' !in origin && '&' !in destination && '&' !in date
    requires '&' !in returnDate && '&' !in tripType
    requires '?' !in path
    ensures var params := SearchForm.SearchParams(origin, destination, date, returnDate, tripType);
      Decode(QueryOf(path + "?" + Encode(params))) == params
  {
    var params := SearchForm.SearchParams(origin, destination, date, returnDate, tripType);
    assert Plain(params) by {
      FormParamsPlain(origin, destination, date, returnDate, tripType);
    }
    PathQueryDecodes(path, params);
  }

  lemma FormParamsRead(origin: string, destination: string, date: string,
                       returnDate: string, tripType: string)
    ensures var sent := tripType == RoundTripType && returnDate != "";
      ReadSearch(SearchForm.SearchParams(origin, destination, date, returnDate, tripType)) == SearchQuery(
        Trim(origin), Trim(destination), Trim(date),
        if sent then Trim(returnDate) else "",
        if tripType == "" then OneWayType else tripType)
  {
    SearchForm.SearchParamsRead(origin, destination, date, returnDate, tripType);
    var sent := tripType == RoundTripType && returnDate != "";
    ReadSearchOf(SearchForm.SearchParams(origin, destination, date, returnDate, tripType),
      Trim(origin), Trim(destination), Trim(date), if sent then Some(Trim(returnDate)) else None, tripType);
    TrimTwice(origin);
    TrimTwice(destination);
    TrimTwice(date);
    TrimTwice(returnDate);
    assert Trim("") == "";
  }

  lemma ReadSearchOf(params: Params, o: string, d: string, dt: string, rd: Option<string>, tt: string)
    requires Get(params, "origin") == Some(o) && Get(params, "destination") == Some(d)
    requires Get(params, "date") == Some(dt) && Get(params, "returnDate") == rd
    requires Get(params, "tripType") == Some(tt)
    ensures ReadSearch(params) ==
      SearchQuery(Trim(o), Trim(d), Trim(dt), Trim(rd.GetOr("")), if tt == "" then OneWayType else tt)
  {
  }

  lemma FormParamsPlain(origin: string, destination: string, date: string,
                        returnDate: string, tripType: string)
    requires '&' !in origin && '&' !in destination && '&' !in date
    requires '&' !in returnDate && '&' !in tripType
    ensures Plain(SearchForm.SearchParams(origin, destination, date, returnDate, tripType))
  {
    TrimKeeps(origin, '&');
    TrimKeeps(destination, '&');
    TrimKeeps(date, '&');
    TrimKeeps(returnDate, '&');
    var withReturn := tripType == RoundTripType && returnDate != "";
    FieldsPlain(Trim(origin), Trim(destination), Trim(date), tripType, withReturn, Trim(returnDate));
  }

  lemma FieldsPlain(o: string, d: string, dt: string, tt: string, withReturn: bool, rd: string)
    requires '&' !in o && '&' !in d && '&' !in dt && '&' !in tt && '&' !in rd
    ensures var base := [("origin", o), ("destination", d), ("date", dt), ("tripType", tt)];
      Plain(if withReturn then base + [("returnDate", rd)] else base)
  {
    var base := [("origin", o), ("destination", d), ("date", dt), ("tripType", tt)];
    var p := if withReturn then base + [("returnDate", rd)] else base;
    forall i | 0 <= i < |p|
      ensures '&' !in p[i].0 && '=' !in p[i].0 && '&' !in p[i].1
    {
      if i < 4 {
        assert p[i] == base[i];
      }
    }
  }

  lemma TrimTwice(s: string)
    ensures Trim(Trim(s)) == Trim(s)
  {
    TrimOfTrimmed(Trim(s));
  }

  // ---------------------------------------------------------------------
  // Seat classes and booking links

  /** `translations[seatClass] || seatClass` */
  function TranslateSeatClass(seatClass: Option<string>): (r: Option<string>)
    ensures r.Some? <==> seatClass.Some?
    ensures seatClass == Some("economy") ==> r == Some("Económica")
    ensures seatClass == Some("business") ==> r == Some("Executiva")
    ensures seatClass == Some("first") ==> r == Some("Primeira Classe")
  {
    match seatClass
    case Some(c) =>
      if c == "economy" then Some("Económica")
      else if c == "business" then Some("Executiva")
      else if c == "first" then Some("Primeira Classe")
      else seatClass
    case None => None
  }

  /** Every seat class other than the three known ones is shown as it is. */
  lemma TranslateOthersUnchanged(seatClass: Option<string>)
    requires seatClass !in {Some("economy"), Some("business"), Some("first")}
    ensures TranslateSeatClass(seatClass) == seatClass
  {
  }

  /** `/booking?outboundTripId=…`, with `&returnTripId=…` for a return. */
  function BookingUrl(outboundId: string, returnId: Option<string>): string {
    BookingPath + "?" + Pair("outboundTripId", outboundId)
      + (if returnId.Some? then "&" + Pair("returnTripId", returnId.value) else "")
  }

  /** The pairs of a booking link. */
  function BookingPairs(outboundId: string, returnId: Option<string>): Params {
    [("outboundTripId", outboundId)]
      + (if returnId.Some? then [("returnTripId", returnId.value)] else [])
  }

  /** The booking page reads back the trip ids of the link, as long as they
      hold no '&'. */
  lemma BookingUrlRead(outboundId: string, returnId: Option<string>)
    requires '&' !in outboundId && (returnId.Some? ==> '&' !in returnId.value)
    ensures var params := Decode(QueryOf(BookingUrl(outboundId, returnId)));
      && Get(params, "outboundTripId") == Some(outboundId)
      && Get(params, "returnTripId") == returnId
  {
    var pairs := BookingPairs(outboundId, returnId);
    assert Decode(QueryOf(BookingUrl(outboundId, returnId))) == pairs by {
      assert Plain(pairs) by {
        forall i | 0 <= i < |pairs|
          ensures '&' !in pairs[i].0 && '=' !in pairs[i].0 && '&' !in pairs[i].1
        {
        }
      }
      BookingUrlEncodes(outboundId, returnId);
      PathQueryDecodes(BookingPath, pairs);
    }
    BookingPairsRead(outboundId, returnId);
  }

  lemma BookingUrlEncodes(outboundId: string, returnId: Option<string>)
    ensures BookingUrl(outboundId, returnId) == BookingPath + "?" + Encode(BookingPairs(outboundId, returnId))
  {
    var first := Pair("outboundTripId", outboundId);
    if returnId.Some? {
      var second := Pair("returnTripId", returnId.value);
      assert Pieces(BookingPairs(outboundId, returnId)) == [first, second];
      assert Join([first, second], "&") == first + "&" + Join([second], "&");
    } else {
      assert Pieces(BookingPairs(outboundId, returnId)) == [first];
    }
  }

  lemma BookingPairsRead(outboundId: string, returnId: Option<string>)
    ensures var pairs := BookingPairs(outboundId, returnId);
      && Get(pairs, "outboundTripId") == Some(outboundId)
      && Get(pairs, "returnTripId") == returnId
  {
    var rest: Params := if returnId.Some? then [("returnTripId", returnId.value)] else [];
    assert BookingPairs(outboundId, returnId) == [("outboundTripId", outboundId)] + rest;
    assert |"outboundTripId"| == 14 && |"returnTripId"| == 12;
    GetCons("outboundTripId", outboundId, rest, "returnTripId");
    if returnId.Some? {
      GetCons("returnTripId", returnId.value, [], "returnTripId");
    }
  }

  // ---------------------------------------------------------------------
  // The page

  class SearchResults {
    const search: SearchQuery
    var outboundTrips: seq<Trip>
    var returnTrips: seq<Trip>
    var selectedOutboundTrip: Option<Trip>
    var loading: bool
    var error: Option<string>
    /** The URLs the router was sent to, oldest first. */
    var navigations: seq<string>

    /** The page opens on the search read from its URL (`ReadSearch`);
        nothing is listed yet and the page is loading. */
    constructor (search: SearchQuery)
      ensures this.search == search
      ensures outboundTrips == [] && returnTrips == [] && selectedOutboundTrip.None?
      ensures loading && error.None? && navigations == []
    {
      this.search := search;
      outboundTrips := [];
      returnTrips := [];
      selectedOutboundTrip := None;
      loading := true;
      error := None;
      navigations := [];
    }

    /** loadTrips: with a field missing it only stops loading. Otherwise it
        fetches the outbound trips and, for a round trip, the return trips
        from the destination back to the origin on the return date; any
        failure sets the error message and empties both lists. Loading ends
        in every case. */
    method LoadTrips(table: seq<Trip>, dayOf: string -> Option<Window>, outboundOk: bool, returnOk: bool)
      modifies this`outboundTrips, this`returnTrips, this`loading, this`error
      ensures !loading
      ensures var q := search;
        var out := FetchTrips(q.origin, q.destination, q.date, table, dayOf, outboundOk);
        var back := FetchTrips(q.destination, q.origin, q.returnDate, table, dayOf, returnOk);
        var failed := out.Err? || (IsRoundTrip(q) && back.Err?);
        if q.origin == "" || q.destination == "" || q.date == "" then
          && outboundTrips == old(outboundTrips) && returnTrips == old(returnTrips)
          && error == old(error)
        else
          && error == (if failed then Some(LoadErrorMessage) else None)
          && outboundTrips == (if failed then [] else out.value)
          && returnTrips == (if failed then [] else if IsRoundTrip(q) then back.value else old(returnTrips))
    {
      if search.origin == "" || search.destination == "" || search.date == "" {
        loading := false;
        return;
      }
      loading := true;
      error := None;
      var outbound := FetchTrips(search.origin, search.destination, search.date, table, dayOf, outboundOk);
      if outbound.Err? {
        error := Some(LoadErrorMessage);
        outboundTrips := [];
        returnTrips := [];
        loading := false;
        return;
      }
      outboundTrips := outbound.value;
      if IsRoundTrip(search) {
        var back := FetchTrips(search.destination, search.origin, search.returnDate, table, dayOf, returnOk);
        if back.Err? {
          error := Some(LoadErrorMessage);
          outboundTrips := [];
          returnTrips := [];
          loading := false;
          return;
        }
        returnTrips := back.value;
      }
      loading := false;
    }

    /** handleSelectOutboundTrip: a round trip only remembers the choice;
        one way goes straight to booking that trip. */
    method SelectOutboundTrip(trip: Trip)
      modifies this`selectedOutboundTrip, this`navigations
      ensures IsRoundTrip(search) ==>
        selectedOutboundTrip == Some(trip) && navigations == old(navigations)
      ensures !IsRoundTrip(search) ==>
        && selectedOutboundTrip == old(selectedOutboundTrip)
        && navigations == old(navigations) + [BookingUrl(trip.id, None)]
    {
      if IsRoundTrip(search) {
        selectedOutboundTrip := Some(trip);
      } else {
        navigations := navigations + [BookingUrl(trip.id, None)];
      }
    }

    /** handleSelectReturnTrip: goes to booking both trips once an outbound
        trip is chosen, and does nothing before. */
    method SelectReturnTrip(trip: Trip)
      modifies this`navigations
      ensures selectedOutboundTrip.None? ==> navigations == old(navigations)
      ensures selectedOutboundTrip.Some? ==>
        navigations == old(navigations) + [BookingUrl(selectedOutboundTrip.value.id, Some(trip.id))]
    {
      if selectedOutboundTrip.Some? {
        navigations := navigations + [BookingUrl(selectedOutboundTrip.value.id, Some(trip.id))];
      }
    }
  }
}
