/** The records the booking flow passes around: trips with their route and
    bus, the signed-in user, ticket rows and the booking draft. Identifiers
    are strings, prices whole currency units, timestamps integers. */
module Entities {
  import opened Wrappers
  import opened Text

  datatype Route = Route(
    originCity: string,
    originProvince: string,
    destinationCity: string,
    destinationProvince: string)

  /** A scheduled departure of a bus on a route. `capacity` is the bus's
      seat count and is missing when the bus was not loaded with the trip.
      `busCompany` is the name of the company running the trip's bus, and is
      missing when the trip has no bus or its bus has no company. */
  datatype Trip = Trip(
    id: string,
    departureTime: int,
    priceUsd: int,
    availableSeats: int,
    seatClass: Option<string>,
    status: string,
    route: Route,
    capacity: Option<int>,
    licensePlate: string,
    busCompany: Option<string>)

  /** The signed-in user as the identity provider returns it. */
  datatype User = User(id: string, email: string, fullName: Option<string>)

  /** A row of the tickets table as far as seat occupancy reads it. */
  datatype TicketRecord = TicketRecord(tripId: string, status: string, seatNumber: string)

  /** The draft the seat map stores under "bookingDetails" for the checkout page. */
  datatype Draft = Draft(tripDetails: Trip, selectedSeats: seq<int>, totalPrice: int)

  /** The `seat_number` column of a ticket booked for several seats:
      `selectedSeats.join(',')`. */
  function JoinSeats(seats: seq<int>): string {
    Join(IntStrings(seats), ",")
  }

  function IntStrings(seats: seq<int>): (r: seq<string>)
    ensures |r| == |seats|
    ensures forall i :: 0 <= i < |seats| ==> r[i] == IntToString(seats[i])
  {
    if seats == [] then [] else [IntToString(seats[0])] + IntStrings(seats[1..])
  }

  /** Reads a `seat_number` value back as seat numbers: the comma-separated
      pieces, each an integer; None when a piece is not a number. */
  function ParseSeatList(s: string): Option<seq<int>> {
    ParseAll(SplitOn(s, ','))
  }

  function ParseAll(pieces: seq<string>): (r: Option<seq<int>>)
    ensures r.Some? ==> |r.value| == |pieces|
    ensures r.Some? ==> forall i :: 0 <= i < |pieces| ==> ParseInt(pieces[i]) == Some(r.value[i])
  {
    if pieces == [] then Some([])
    else match (ParseInt(pieces[0]), ParseAll(pieces[1..]))
      case (Some(n), Some(rest)) => Some([n] + rest)
      case _ => None
  }

  /** The seat list written to `seat_number` at checkout reads back as the
      same seats, in the same order. */
  lemma {:induction false} SeatListRoundTrip(seats: seq<int>)
    requires |seats| >= 1
    ensures ParseSeatList(JoinSeats(seats)) == Some(seats)
  {
    var pieces := IntStrings(seats);
    forall i | 0 <= i < |pieces|
      ensures ',' !in pieces[i]
    {
      assert pieces[i] == IntToString(seats[i]);
    }
    SplitJoinOn(pieces, ',');
    ParseAllOfIntStrings(seats);
  }

  lemma {:induction false} ParseAllOfIntStrings(seats: seq<int>)
    ensures ParseAll(IntStrings(seats)) == Some(seats)
  {
    if seats != [] {
      ParseIntOfIntToString(seats[0]);
      ParseAllOfIntStrings(seats[1..]);
      assert IntStrings(seats)[1..] == IntStrings(seats[1..]);
      assert seats == [seats[0]] + seats[1..];
    }
  }
}
