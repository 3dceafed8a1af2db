/** The booking page (app/booking/page.js): it reads the trip ids from its
    URL, loads the outbound trip and the seats already taken on it, and the
    return trip with its taken seats when there is one, alerts on any
    failure, and hands the trip and its taken seats to the seat map. */
module Booking {
  import opened Wrappers
  import opened Text
  import opened Query
  import opened Entities
  import opened SeatSelection

  const HomePath := "/"
  const LoadErrorMessage := "Erro ao carregar detalhes da viagem."

  /** What the page does outside itself: navigate or show an alert. */
  datatype Event = Push(url: string) | Alert(message: string)

  /** The reads the page sends to the store. */
  datatype Request = TripById(id: string) | TicketsOfTrip(id: string)

  /** The store's tables, and which of the page's requests (numbered from 0
      in the order the page sends them) fail on the way. */
  datatype Store = Store(trips: seq<Trip>, tickets: seq<TicketRecord>, failing: set<nat>)

  /** A URL parameter counts when it is present and not empty. */
  predicate Present(id: Option<string>) {
    id.Some? && id.value != ""
  }

  // ---------------------------------------------------------------------
  // The store's answers

  function RowsWithId(trips: seq<Trip>, id: string): (r: seq<Trip>)
    ensures forall t :: t in r <==> t in trips && t.id == id
  {
    if trips == [] then []
    else (if trips[0].id == id then [trips[0]] else []) + RowsWithId(trips[1..], id)
  }

  /** `.eq('id', id).single()`: the row when exactly one has the id; none
      or several is an error. */
  function Single(trips: seq<Trip>, id: string): (r: Option<Trip>)
    ensures r.Some? ==> r.value in trips && r.value.id == id
    ensures r.None? <==> |RowsWithId(trips, id)| != 1
  {
    var rows := RowsWithId(trips, id);
    if |rows| == 1 then Some(rows[0]) else None
  }

  /** A ticket that holds its seat: status "active" or "used". */
  predicate Holds(t: TicketRecord) {
    t.status == "active" || t.status == "used"
  }

  /** The `seat_number`s of the tickets of a trip that hold their seats,
      in table order. */
  function OccupiedSeatNumbers(tickets: seq<TicketRecord>, tripId: string): (r: seq<string>)
    ensures |r| <= |tickets|
    ensures forall s :: s in r <==>
      exists t :: t in tickets && t.tripId == tripId && Holds(t) && t.seatNumber == s
  {
    if tickets == [] then []
    else
      var t := tickets[0];
      var rest := OccupiedSeatNumbers(tickets[1..], tripId);
      assert forall u :: u in tickets <==> u == t || u in tickets[1..];
      (if t.tripId == tripId && Holds(t) then [t.seatNumber] else []) + rest
  }

  // ---------------------------------------------------------------------
  // fetchTripData

  /** What loading one trip sends and obtains: the requests in order, the
      trip and the seats taken on it as far as they were obtained. */
  datatype Leg = Leg(requests: seq<Request>, trip: Option<Trip>, seats: Option<seq<string>>)

  /** What one run of fetchTripData sends and obtains: the requests in
      order, the outbound trip and its taken seats and the return trip and
      its taken seats as far as they were obtained (None: not set), and
      whether it stopped on a failure. */
  datatype Fetched = Fetched(
    requests: seq<Request>,
    outbound: Option<Trip>,
    outboundSeats: Option<seq<string>>,
    returnTrip: Option<Trip>,
    returnSeats: Option<seq<string>>,
    failed: bool)

  /** A request fails when the store fails it, or when it asks for one trip
      and the store does not have exactly one row with that id. */
  predicate RequestFails(store: Store, requests: seq<Request>, i: nat)
    requires i < |requests|
  {
    i in store.failing || (requests[i].TripById? && Single(store.trips, requests[i].id).None?)
  }

  /** The requests of a run that meets no failure. */
  function Planned(outboundId: string, returnId: Option<string>): seq<Request> {
    [TripById(outboundId), TicketsOfTrip(outboundId)]
      + (if Present(returnId) then [TripById(returnId.value), TicketsOfTrip(returnId.value)] else [])
  }

  /** One trip and its taken seats: the trip by id, then its tickets;
      `first` numbers the first of the two requests. */
  function FetchLeg(id: string, store: Store, first: nat): Leg {
    var found := Single(store.trips, id);
    if first in store.failing || found.None? then Leg([TripById(id)], None, None)
    else if first + 1 in store.failing then Leg([TripById(id), TicketsOfTrip(id)], found, None)
    else Leg([TripById(id), TicketsOfTrip(id)], found, Some(OccupiedSeatNumbers(store.tickets, id)))
  }

  /** fetchTripData for an outbound id that is present: the outbound leg,
      then, when it succeeded and a return id is present, the return leg. */
  function Fetch(outboundId: string, returnId: Option<string>, store: Store): Fetched {
    var out := FetchLeg(outboundId, store, 0);
    if out.seats.None? || !Present(returnId) then
      Fetched(out.requests, out.trip, out.seats, None, None, out.seats.None?)
    else
      var back := FetchLeg(returnId.value, store, 2);
      Fetched(out.requests + back.requests, out.trip, out.seats, back.trip, back.seats, back.seats.None?)
  }

  /** A run sends the planned requests in order, at least the first, and
      only requests for the outbound trip when there is no return id. */
  lemma FetchRequests(outboundId: string, returnId: Option<string>, store: Store)
    ensures var f := Fetch(outboundId, returnId, store);
      && 1 <= |f.requests|
      && f.requests <= Planned(outboundId, returnId)
      && (!Present(returnId) ==> f.requests <= [TripById(outboundId), TicketsOfTrip(outboundId)])
  {
    var f := Fetch(outboundId, returnId, store);
    var plan := Planned(outboundId, returnId);
    var out := FetchLeg(outboundId, store, 0);
    assert out.requests <= plan[..2];
    if out.seats.Some? && Present(returnId) {
      var back := FetchLeg(returnId.value, store, 2);
      assert plan == plan[..2] + plan[2..];
      assert back.requests <= plan[2..];
    }
  }

  /** A run stops at the first request that fails: every request before
      the last succeeded, and the run failed exactly when its last request
      failed. */
  lemma FetchStopsAtFailure(outboundId: string, returnId: Option<string>, store: Store)
    ensures var f := Fetch(outboundId, returnId, store);
      && 1 <= |f.requests|
      && (forall i :: 0 <= i < |f.requests| - 1 ==> !RequestFails(store, f.requests, i))
      && (f.failed <==> RequestFails(store, f.requests, |f.requests| - 1))
  {
    if FetchLeg(outboundId, store, 0).seats.Some? && Present(returnId) {
      BothLegsStop(outboundId, returnId.value, store);
    }
  }

  lemma BothLegsStop(outboundId: string, returnId: string, store: Store)
    requires FetchLeg(outboundId, store, 0).seats.Some? && returnId != ""
    ensures var f := Fetch(outboundId, Some(returnId), store);
      && (forall i :: 0 <= i < |f.requests| - 1 ==> !RequestFails(store, f.requests, i))
      && (f.failed <==> RequestFails(store, f.requests, |f.requests| - 1))
  {
    var f := Fetch(outboundId, Some(returnId), store);
    var back := FetchLeg(returnId, store, 2);
    assert f.requests == [TripById(outboundId), TicketsOfTrip(outboundId)] + back.requests;
    assert !RequestFails(store, f.requests, 0) && !RequestFails(store, f.requests, 1);
    if back.trip.Some? {
      assert !RequestFails(store, f.requests, 2);
    }
  }

  /** A run without a failure has the outbound trip and the seats taken on
      it, and for a return id the return trip and the seats taken on it. */
  lemma FetchSuccess(outboundId: string, returnId: Option<string>, store: Store)
    requires !Fetch(outboundId, returnId, store).failed
    ensures var f := Fetch(outboundId, returnId, store);
      && f.requests == Planned(outboundId, returnId)
      && f.outbound == Single(store.trips, outboundId) && f.outbound.Some?
      && f.outboundSeats == Some(OccupiedSeatNumbers(store.tickets, outboundId))
      && (Present(returnId) ==>
            && f.returnTrip == Single(store.trips, returnId.value) && f.returnTrip.Some?
            && f.returnSeats == Some(OccupiedSeatNumbers(store.tickets, returnId.value)))
  {
  }

  /** The outbound trip is missing after a run exactly when its own request
      failed. */
  lemma FetchOutboundMissing(outboundId: string, returnId: Option<string>, store: Store)
    ensures var f := Fetch(outboundId, returnId, store);
      1 <= |f.requests| && (f.outbound.None? <==> RequestFails(store, f.requests, 0))
  {
  }

  // ---------------------------------------------------------------------
  // The seats the seat map must block

  /** Values as JavaScript compares them in `Array.prototype.includes`. */
  datatype JsValue = JsNumber(n: int) | JsString(s: string)

  function AsJsStrings(values: seq<string>): (r: seq<JsValue>)
    ensures |r| == |values|
    ensures forall v :: v in r ==> v.JsString?
  {
    if values == [] then [] else [JsString(values[0])] + AsJsStrings(values[1..])
  }

  /** The seats among 1..capacity that the seat map treats as occupied when
      it is handed the `seat_number` strings: `occupiedSeats.includes(i)`
      with a number `i`, which no string equals. */
  function OccupiedAsWritten(seatNumbers: seq<string>, capacity: int): set<int> {
    set i | 1 <= i <= capacity && JsNumber(i) in AsJsStrings(seatNumbers)
  }

  /** As written, no seat is ever blocked. */
  lemma NothingBlockedAsWritten(seatNumbers: seq<string>, capacity: int)
    ensures OccupiedAsWritten(seatNumbers, capacity) == {}
  {
    forall i | 1 <= i <= capacity
      ensures JsNumber(i) !in AsJsStrings(seatNumbers)
    {
    }
  }

  /** A seat held by an active ticket can be selected again: seat 3 of a
      40-seat bus, booked on ticket "3", is taken into the selection. */
  lemma DoubleBookingAsWritten()
    ensures var taken := OccupiedSeatNumbers([TicketRecord("t1", "active", "3")], "t1");
      && taken == ["3"]
      && ParseSeatList(taken[0]) == Some([3])
      && Toggle([], 3, OccupiedAsWritten(taken, 40)) == [3]
  {
    var taken := OccupiedSeatNumbers([TicketRecord("t1", "active", "3")], "t1");
    assert taken == ["3"];
    SeatListRoundTrip([3]);
    assert JoinSeats([3]) == "3";
    NothingBlockedAsWritten(taken, 40);
  }

  /** The seats the `seat_number` values name: each value read as a
      comma-separated list of seats; values that are not such a list name
      none. */
  function OccupiedSeats(seatNumbers: seq<string>): (r: set<int>)
    ensures forall n :: n in r <==>
      exists s :: s in seatNumbers && ParseSeatList(s).Some? && n in ParseSeatList(s).value
  {
    if seatNumbers == [] then {}
    else
      var s := seatNumbers[0];
      var here: set<int> := if ParseSeatList(s).Some? then set n | n in ParseSeatList(s).value else {};
      assert forall x :: x in seatNumbers <==> x == s || x in seatNumbers[1..];
      here + OccupiedSeats(seatNumbers[1..])
  }

  /** Every seat of a ticket written at checkout is blocked on the seat map,
      and clicking it leaves the selection alone. */
  lemma BookedSeatsBlocked(seats: seq<int>, seatNumbers: seq<string>, selection: seq<int>, seat: int)
    requires |seats| >= 1 && JoinSeats(seats) in seatNumbers && seat in seats
    ensures seat in OccupiedSeats(seatNumbers)
    ensures Toggle(selection, seat, OccupiedSeats(seatNumbers)) == selection
  {
    SeatListRoundTrip(seats);
  }

  // ---------------------------------------------------------------------
  // The page

  class BookingPage {
    const outboundTripId: Option<string>
    const returnTripId: Option<string>
    var outboundTrip: Option<Trip>
    var returnTrip: Option<Trip>
    var outboundOccupiedSeats: seq<string>
    var returnOccupiedSeats: seq<string>
    var loading: bool
    var events: seq<Event>
    /** The requests sent to the store, oldest first. */
    var requests: seq<Request>

    /** The page reads `outboundTripId` and `returnTripId` from its URL and
        starts loading with nothing shown. */
    constructor (params: Params)
      ensures outboundTripId == Get(params, "outboundTripId")
      ensures returnTripId == Get(params, "returnTripId")
      ensures outboundTrip.None? && returnTrip.None?
      ensures outboundOccupiedSeats == [] && returnOccupiedSeats == []
      ensures loading && events == [] && requests == []
    {
      outboundTripId := Get(params, "outboundTripId");
      returnTripId := Get(params, "returnTripId");
      outboundTrip := None;
      returnTrip := None;
      outboundOccupiedSeats := [];
      returnOccupiedSeats := [];
      loading := true;
      events := [];
      requests := [];
    }

    /** Sends one request; the answer is whether the store fails it. */
    method Send(r: Request, store: Store, index: nat) returns (failed: bool)
      modifies this`requests
      ensures requests == old(requests) + [r]
      ensures failed == (index in store.failing)
    {
      requests := requests + [r];
      failed := index in store.failing;
    }

    /** Loads one trip and then the seats taken on it, stopping at the
        first failure; `first` numbers the first request. */
    method LoadLeg(id: string, store: Store, first: nat) returns (trip: Option<Trip>, seats: Option<seq<string>>)
      modifies this`requests
      ensures var leg := FetchLeg(id, store, first);
        requests == old(requests) + leg.requests && trip == leg.trip && seats == leg.seats
    {
      var failed := Send(TripById(id), store, first);
      trip := Single(store.trips, id);
      if failed || trip.None? {
        trip := None;
        seats := None;
        return;
      }
      failed := Send(TicketsOfTrip(id), store, first + 1);
      if failed {
        seats := None;
        return;
      }
      seats := Some(OccupiedSeatNumbers(store.tickets, id));
    }

    /** The effect: without an outbound id, back to the home page and
        nothing asked of the store; otherwise the outbound trip and its
        taken seats, then for a return id the return trip and its taken
        seats, an alert at the first failure, and loading off at the end. */
    method FetchTripData(store: Store)
      modifies this
      ensures !Present(outboundTripId) ==>
        && events == old(events) + [Push(HomePath)]
        && requests == old(requests) && loading == old(loading)
        && outboundTrip == old(outboundTrip) && returnTrip == old(returnTrip)
        && outboundOccupiedSeats == old(outboundOccupiedSeats)
        && returnOccupiedSeats == old(returnOccupiedSeats)
      ensures Present(outboundTripId) ==>
        var f := Fetch(outboundTripId.value, returnTripId, store);
        && requests == old(requests) + f.requests
        && events == old(events) + (if f.failed then [Alert(LoadErrorMessage)] else [])
        && !loading
        && outboundTrip == (if f.outbound.Some? then f.outbound else old(outboundTrip))
        && outboundOccupiedSeats == f.outboundSeats.GetOr(old(outboundOccupiedSeats))
        && returnTrip == (if f.returnTrip.Some? then f.returnTrip else old(returnTrip))
        && returnOccupiedSeats == f.returnSeats.GetOr(old(returnOccupiedSeats))
    {
      if !Present(outboundTripId) {
        events := events + [Push(HomePath)];
        return;
      }
      loading := true;
      var ok := LoadOutbound(store);
      if ok && Present(returnTripId) {
        ok := LoadReturn(store);
      }
      if !ok {
        events := events + [Alert(LoadErrorMessage)];
      }
      loading := false;
    }

    /** The outbound leg: the trip and its taken seats are set as far as
        they were obtained; `ok` tells whether both were. */
    method LoadOutbound(store: Store) returns (ok: bool)
      requires Present(outboundTripId)
      modifies this`outboundTrip, this`outboundOccupiedSeats, this`requests
      ensures var leg := FetchLeg(outboundTripId.value, store, 0);
        && requests == old(requests) + leg.requests
        && ok == leg.seats.Some?
        && outboundTrip == (if leg.trip.Some? then leg.trip else old(outboundTrip))
        && outboundOccupiedSeats == leg.seats.GetOr(old(outboundOccupiedSeats))
    {
      var trip, seats := LoadLeg(outboundTripId.value, store, 0);
      if trip.Some? {
        outboundTrip := trip;
      }
      ok := seats.Some?;
      if ok {
        outboundOccupiedSeats := seats.value;
      }
    }

    /** The return leg, numbered after the two outbound requests. */
    method LoadReturn(store: Store) returns (ok: bool)
      requires Present(returnTripId)
      modifies this`returnTrip, this`returnOccupiedSeats, this`requests
      ensures var leg := FetchLeg(returnTripId.value, store, 2);
        && requests == old(requests) + leg.requests
        && ok == leg.seats.Some?
        && returnTrip == (if leg.trip.Some? then leg.trip else old(returnTrip))
        && returnOccupiedSeats == leg.seats.GetOr(old(returnOccupiedSeats))
    {
      var trip, seats := LoadLeg(returnTripId.value, store, 2);
      if trip.Some? {
        returnTrip := trip;
      }
      ok := seats.Some?;
      if ok {
        returnOccupiedSeats := seats.value;
      }
    }

    /** The "trip not found" view: loading is over and there is no
        outbound trip. */
    predicate NotFound()
      reads this
    {
      !loading && outboundTrip.None?
    }

    /** The seat map for the outbound trip, with the seats its tickets
        hold blocked; none while loading or when the trip was not found. */
    method OpenSeatMap() returns (seatMap: SeatSelector?)
      ensures seatMap == null <==> loading || outboundTrip.None?
      ensures seatMap != null ==>
        && fresh(seatMap)
        && seatMap.trip == outboundTrip.value
        && seatMap.occupied == OccupiedSeats(outboundOccupiedSeats)
        && seatMap.selected == []
    {
      if loading || outboundTrip.None? {
        return null;
      }
      seatMap := new SeatSelector(outboundTrip.value, OccupiedSeats(outboundOccupiedSeats));
    }
  }

  /** A page whose outbound trip is not in the store ends on the "not
      found" view after alerting. */
  lemma NotFoundAfterMissingTrip(outboundId: string, returnId: Option<string>, store: Store)
    requires Single(store.trips, outboundId).None?
    ensures var f := Fetch(outboundId, returnId, store);
      f.failed && f.outbound.None? && f.requests == [TripById(outboundId)]
  {
  }
}
