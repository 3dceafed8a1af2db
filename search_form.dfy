/** The search form (components/search-form.js): its fields and their
    defaults, the prefill from the current URL and the query it submits to
    the search page. */
module SearchForm {
  import opened Wrappers
  import opened Text
  import opened Query

  const SearchPath := "/search"
  const OneWay := "one-way"
  const RoundTrip := "round-trip"

  /** The parameters of a search: origin, destination and date trimmed, the
      trip type as it is, and the trimmed return date only for a round trip
      with a return date filled in. */
  function SearchParams(origin: string, destination: string, date: string,
                        returnDate: string, tripType: string): Params
  {
    var base := [("origin", Trim(origin)), ("destination", Trim(destination)),
                 ("date", Trim(date)), ("tripType", tripType)];
    if tripType == RoundTrip && returnDate != "" then base + [("returnDate", Trim(returnDate))]
    else base
  }

  /** Each field is read back from the parameters under its own key; the
      return date only for a round trip with a return date filled in. */
  lemma SearchParamsRead(origin: string, destination: string, date: string,
                         returnDate: string, tripType: string)
    ensures var p := SearchParams(origin, destination, date, returnDate, tripType);
      && Get(p, "origin") == Some(Trim(origin))
      && Get(p, "destination") == Some(Trim(destination))
      && Get(p, "date") == Some(Trim(date))
      && Get(p, "tripType") == Some(tripType)
      && Get(p, "returnDate") ==
           if tripType == RoundTrip && returnDate != "" then Some(Trim(returnDate)) else None
  {
    var roundTrip := tripType == RoundTrip && returnDate != "";
    FieldsRead(Trim(origin), Trim(destination), Trim(date), tripType, roundTrip, Trim(returnDate));
  }

  lemma FieldsRead(o: string, d: string, dt: string, tt: string, withReturn: bool, rd: string)
    ensures var base := [("origin", o), ("destination", d), ("date", dt), ("tripType", tt)];
      var p := if withReturn then base + [("returnDate", rd)] else base;
      && Get(p, "origin") == Some(o)
      && Get(p, "destination") == Some(d)
      && Get(p, "date") == Some(dt)
      && Get(p, "tripType") == Some(tt)
      && Get(p, "returnDate") == if withReturn then Some(rd) else None
  {
    var rest: Params := if withReturn then [("returnDate", rd)] else [];
    var p4 := [("tripType", tt)] + rest;
    var p3 := [("date", dt)] + p4;
    var p2 := [("destination", d)] + p3;
    var p := [("origin", o)] + p2;
    var base := [("origin", o), ("destination", d), ("date", dt), ("tripType", tt)];
    assert p == base + rest;
    assert p == if withReturn then base + [("returnDate", rd)] else base;
    assert p[1..] == p2 && p2[1..] == p3 && p3[1..] == p4 && p4[1..] == rest;
    assert |"origin"| == 6 && |"destination"| == 11 && |"date"| == 4;
    assert |"tripType"| == 8 && |"returnDate"| == 10;
    assert Get(rest, "returnDate") == if withReturn then Some(rd) else None;
    assert Get(p4, "returnDate") == Get(rest, "returnDate");
    assert Get(p3, "returnDate") == Get(p4, "returnDate");
    assert Get(p2, "returnDate") == Get(p3, "returnDate");
    assert Get(p, "returnDate") == Get(p2, "returnDate");
    assert Get(p3, "tripType") == Get(p4, "tripType");
    assert Get(p2, "tripType") == Get(p3, "tripType");
    assert Get(p, "tripType") == Get(p2, "tripType");
    assert Get(p2, "date") == Get(p3, "date");
    assert Get(p, "date") == Get(p2, "date");
  }

  /** A value from the URL replaces a field only when it is present and not
      empty. */
  function Prefilled(field: string, fromUrl: Option<string>): (r: string)
    ensures (fromUrl.Some? && fromUrl.value != "") ==> r == fromUrl.value
    ensures (fromUrl.None? || fromUrl.value == "") ==> r == field
  {
    match fromUrl
    case Some(v) => if v != "" then v else field
    case None => field
  }

  /** The form's state. */
  class SearchFormState {
    var origin: string
    var destination: string
    var departureDate: string
    var returnDate: string
    var tripType: string

    /** Empty places, today's date (`today`, the UTC day of the clock as
        YYYY-MM-DD), no return date, one way. */
    constructor (today: string)
      ensures origin == "" && destination == "" && departureDate == today
      ensures returnDate == "" && tripType == OneWay
    {
      origin := "";
      destination := "";
      departureDate := today;
      returnDate := "";
      tripType := OneWay;
    }

    /** The effect on the URL's parameters: each field is overwritten by its
        parameter when that is present and not empty. */
    method Prefill(params: Params)
      modifies this`origin, this`destination, this`departureDate, this`returnDate, this`tripType
      ensures origin == Prefilled(old(origin), Get(params, "origin"))
      ensures destination == Prefilled(old(destination), Get(params, "destination"))
      ensures departureDate == Prefilled(old(departureDate), Get(params, "date"))
      ensures returnDate == Prefilled(old(returnDate), Get(params, "returnDate"))
      ensures tripType == Prefilled(old(tripType), Get(params, "tripType"))
    {
      origin := Prefilled(origin, Get(params, "origin"));
      destination := Prefilled(destination, Get(params, "destination"));
      departureDate := Prefilled(departureDate, Get(params, "date"));
      returnDate := Prefilled(returnDate, Get(params, "returnDate"));
      tripType := Prefilled(tripType, Get(params, "tripType"));
    }

    /** handleSearch: the URL the form navigates to, "/search?" and the
        parameters of the search, the return date appended last. */
    method HandleSearch() returns (url: string)
      ensures url == SearchPath + "?" + Encode(SearchParams(origin, destination, departureDate, returnDate, tripType))
    {
      var params := [("origin", Trim(origin)), ("destination", Trim(destination)),
                     ("date", Trim(departureDate)), ("tripType", tripType)];
      if tripType == RoundTrip && returnDate != "" {
        params := params + [("returnDate", Trim(returnDate))];
      }
      url := SearchPath + "?" + Encode(params);
    }
  }
}
