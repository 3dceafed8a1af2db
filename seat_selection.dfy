/** The seat map of one trip (components/seat-selection.js): the grid of
    seats with its aisle, toggling seats in and out of the selection, the
    look of each seat, the price of the selection, the ascending seat
    summary and the draft handed to the checkout page. */
module SeatSelection {
  import opened Wrappers
  import opened Sorting
  import opened Entities

  /** One cell of the seat grid: an empty aisle cell, keyed by the seat
      that follows it, or a seat. */
  datatype Cell = Aisle(before: int) | Seat(number: int)

  /** The three looks of a seat, in priority order. */
  datatype SeatLook = Occupied | Selected | Free

  /** What pressing "continue to payment" does: store the draft under a key
      of local storage and navigate to the checkout page. */
  datatype CheckoutAction = CheckoutAction(storageKey: string, draft: Draft, navigateTo: string)

  const DraftKey := "bookingDetails"
  const CheckoutPath := "/checkout"

  /** `tripDetails?.buses?.capacity || 0` */
  function TotalSeats(trip: Trip): int {
    trip.capacity.GetOr(0)
  }

  /** Seats 3, 7, 11, ... are the first after the aisle. */
  predicate AisleBefore(i: int) {
    (i - 1) % 4 == 2
  }

  /** The cells one turn of the layout loop pushes for seat `i`. */
  function SeatCells(i: int): seq<Cell> {
    if AisleBefore(i) then [Aisle(i), Seat(i)] else [Seat(i)]
  }

  /** The grid for `n` seats: the cells of seats 1, 2, ..., n in turn. */
  function Grid(n: int): seq<Cell>
    decreases n
  {
    if n <= 0 then [] else Grid(n - 1) + SeatCells(n)
  }

  /** The seat numbers of the seat cells, in order. */
  function SeatNumbers(cells: seq<Cell>): seq<int> {
    if cells == [] then []
    else (if cells[0].Seat? then [cells[0].number] else []) + SeatNumbers(cells[1..])
  }

  /** The seat numbers 1, 2, ..., n. */
  function OneTo(n: nat): seq<int> {
    seq(n, i requires 0 <= i < n => i + 1)
  }

  lemma {:induction false} SeatNumbersAppend(a: seq<Cell>, b: seq<Cell>)
    ensures SeatNumbers(a + b) == SeatNumbers(a) + SeatNumbers(b)
  {
    if a == [] {
      assert a + b == b;
    } else {
      var head := if a[0].Seat? then [a[0].number] else [];
      assert (a + b)[0] == a[0];
      assert (a + b)[1..] == a[1..] + b;
      SeatNumbersAppend(a[1..], b);
      assert SeatNumbers(a + b) == head + (SeatNumbers(a[1..]) + SeatNumbers(b));
      assert SeatNumbers(a) == head + SeatNumbers(a[1..]);
    }
  }

  /** The grid holds exactly the seats 1..n in order, and nothing when n is
      not positive (a missing capacity counts as 0). */
  lemma {:induction false} GridSeats(n: int)
    ensures SeatNumbers(Grid(n)) == OneTo(if n < 0 then 0 else n)
    decreases n
  {
    if n > 0 {
      GridSeats(n - 1);
      SeatNumbersAppend(Grid(n - 1), SeatCells(n));
      assert SeatNumbers([Seat(n)]) == [n];
      assert [Aisle(n), Seat(n)][1..] == [Seat(n)];
      assert SeatNumbers(SeatCells(n)) == [n];
      assert OneTo(n) == OneTo(n - 1) + [n];
    }
  }

  /** The grid has one aisle cell for each of the seats 3, 7, 11, ... */
  lemma {:induction false} GridLength(n: nat)
    ensures |Grid(n)| == n + (n + 1) / 4
  {
    if n > 0 {
      GridLength(n - 1);
      AisleCount(n);
      assert |Grid(n)| == |Grid(n - 1)| + |SeatCells(n)|;
    }
  }

  /** Seat `n` adds an aisle exactly when it raises the count of the seats
      3, 7, 11, ... up to it. */
  lemma AisleCount(n: nat)
    requires n > 0
    ensures (n + 1) / 4 == n / 4 + (if AisleBefore(n) then 1 else 0)
  {
    var q, r := n / 4, n % 4;
    assert n == 4 * q + r && 0 <= r < 4;
    if r == 3 {
      assert (n - 1) % 4 == 2 && (n + 1) / 4 == q + 1;
    } else {
      assert (n - 1) % 4 != 2 && (n + 1) / 4 == q;
    }
  }

  /** Every aisle cell stands immediately before the seat it is keyed by,
      which is one of 3, 7, 11, ...; and each of those seats has its aisle
      cell immediately before it. */
  lemma {:induction false} GridAisleAdjacent(n: int, k: int)
    requires 0 <= k < |Grid(n)|
    ensures Grid(n)[k].Aisle? ==>
      && k + 1 < |Grid(n)|
      && Grid(n)[k + 1] == Seat(Grid(n)[k].before)
      && AisleBefore(Grid(n)[k].before)
    ensures Grid(n)[k].Seat? && AisleBefore(Grid(n)[k].number) ==>
      k > 0 && Grid(n)[k - 1] == Aisle(Grid(n)[k].number)
    decreases n
  {
    var g := Grid(n - 1);
    assert Grid(n) == g + SeatCells(n);
    if k < |g| {
      GridAisleAdjacent(n - 1, k);
    }
  }

  /** The three looks, occupied first, then selected, then free. */
  function Look(seat: int, occupied: set<int>, selection: seq<int>): SeatLook {
    if seat in occupied then Occupied
    else if seat in selection then Selected
    else Free
  }

  /** `prev.filter((s) => s !== seat)`: every copy of `seat` goes, the other
      entries stay in their order. */
  function Without(selection: seq<int>, seat: int): (r: seq<int>)
    ensures seat !in r
    ensures forall s :: s != seat ==> (s in r <==> s in selection)
    ensures seat !in selection ==> r == selection
    ensures NoDuplicates(selection) ==> NoDuplicates(r)
    ensures NoDuplicates(selection) && seat in selection ==> |r| == |selection| - 1
  {
    if selection == [] then []
    else if selection[0] == seat then Without(selection[1..], seat)
    else
      var rest := Without(selection[1..], seat);
      NoDuplicatesTail(selection);
      [selection[0]] + rest
  }

  /** Dropping the head of a list without repeats leaves a list without
      repeats that does not hold the head. */
  lemma NoDuplicatesTail(s: seq<int>)
    requires s != []
    ensures NoDuplicates(s) ==> NoDuplicates(s[1..]) && s[0] !in s[1..]
    ensures NoDuplicates(s[1..]) && s[0] !in s[1..] ==> NoDuplicates(s)
  {
    if NoDuplicates(s[1..]) && s[0] !in s[1..] {
      forall i, j | 0 <= i < j < |s|
        ensures s[i] != s[j]
      {
        if i == 0 {
          assert s[j] == s[1..][j - 1];
        } else {
          assert s[i] == s[1..][i - 1] && s[j] == s[1..][j - 1];
        }
      }
    }
  }

  predicate NoDuplicates(s: seq<int>) {
    forall i, j :: 0 <= i < j < |s| ==> s[i] != s[j]
  }

  /** The selection after clicking `seat` (handleSeatClick): an occupied seat
      changes nothing, a selected seat is removed, any other is appended. */
  function Toggle(selection: seq<int>, seat: int, occupied: set<int>): (r: seq<int>)
    ensures seat in occupied ==> r == selection
    ensures seat !in occupied && seat !in selection ==> r == selection + [seat]
    ensures seat !in occupied && seat in selection ==>
      seat !in r && forall s :: s != seat ==> (s in r <==> s in selection)
  {
    if seat in occupied then selection
    else if seat in selection then Without(selection, seat)
    else selection + [seat]
  }

  /** The selection is a list of distinct, unoccupied seats. */
  predicate ValidSelection(selection: seq<int>, occupied: set<int>) {
    NoDuplicates(selection) && forall s :: s in selection ==> s !in occupied
  }

  /** Clicking keeps the selection free of repeats and of occupied seats. */
  lemma ToggleKeepsValid(selection: seq<int>, seat: int, occupied: set<int>)
    requires ValidSelection(selection, occupied)
    ensures ValidSelection(Toggle(selection, seat, occupied), occupied)
  {
    if seat !in occupied && seat !in selection {
      var r := selection + [seat];
      forall i, j | 0 <= i < j < |r|
        ensures r[i] != r[j]
      {
        if j == |selection| {
          assert r[i] in selection;
        }
      }
    }
  }

  /** Clicking a free seat twice gives back the same set of seats, and the
      very same list when the seat was not selected before. */
  lemma ToggleTwice(selection: seq<int>, seat: int, occupied: set<int>)
    requires seat !in occupied
    ensures var r := Toggle(Toggle(selection, seat, occupied), seat, occupied);
      forall s :: s in r <==> s in selection
    ensures seat !in selection ==>
      Toggle(Toggle(selection, seat, occupied), seat, occupied) == selection
  {
    if seat !in selection {
      WithoutAppended(selection, seat);
    }
  }

  lemma {:induction false} WithoutAppended(selection: seq<int>, seat: int)
    requires seat !in selection
    ensures Without(selection + [seat], seat) == selection
  {
    if selection != [] {
      assert (selection + [seat])[1..] == selection[1..] + [seat];
      WithoutAppended(selection[1..], seat);
    }
  }

  /** What the selection costs: seats times the trip's seat price. */
  function TotalFor(selection: seq<int>, price: int): int {
    |selection| * price
  }

  /** A click changes the total by exactly one seat price: up when a free
      seat is added, down when a selected seat is removed, not at all for an
      occupied seat. */
  lemma ToggleTotal(selection: seq<int>, seat: int, occupied: set<int>, price: int)
    requires ValidSelection(selection, occupied)
    ensures TotalFor(Toggle(selection, seat, occupied), price) ==
      if seat in occupied then TotalFor(selection, price)
      else if seat in selection then TotalFor(selection, price) - price
      else TotalFor(selection, price) + price
  {
    var r := Toggle(selection, seat, occupied);
    var n := |selection|;
    if seat !in occupied && seat in selection {
      assert |r| == n - 1;
      assert (n - 1) * price == n * price - price;
    } else if seat !in occupied {
      assert |r| == n + 1;
      assert (n + 1) * price == n * price + price;
    }
  }

  /** A click flips the clicked seat between free and selected, leaves an
      occupied seat occupied, and leaves the look of every other seat alone. */
  lemma ToggleLook(selection: seq<int>, seat: int, occupied: set<int>, other: int)
    requires other != seat
    ensures var after := Toggle(selection, seat, occupied);
      && Look(seat, occupied, after) ==
           (match Look(seat, occupied, selection)
            case Occupied => Occupied
            case Selected => Free
            case Free => Selected)
      && Look(other, occupied, after) == Look(other, occupied, selection)
  {
  }

  function SeatOrder(seat: int): int {
    seat
  }

  /** The seat map component, holding the seats the user has picked. */
  class SeatSelector {
    const trip: Trip
    const occupied: set<int>
    var selected: seq<int>

    constructor (trip: Trip, occupied: set<int>)
      ensures this.trip == trip && this.occupied == occupied
      ensures selected == [] && Valid()
    {
      this.trip := trip;
      this.occupied := occupied;
      selected := [];
    }

    ghost predicate Valid()
      reads this
    {
      ValidSelection(selected, occupied)
    }

    /** handleSeatClick */
    method Click(seat: int)
      requires Valid()
      modifies this
      ensures Valid()
      ensures selected == Toggle(old(selected), seat, occupied)
    {
      ToggleKeepsValid(selected, seat, occupied);
      if seat in occupied {
        return;
      }
      if seat in selected {
        selected := Without(selected, seat);
      } else {
        selected := selected + [seat];
      }
    }

    /** getSeatClass */
    function SeatClass(seat: int): SeatLook
      reads this
    {
      Look(seat, occupied, selected)
    }

    /** totalPrice */
    function TotalPrice(): int
      reads this
    {
      TotalFor(selected, trip.priceUsd)
    }

    /** The checkout button is enabled only when a seat is selected. */
    predicate CheckoutEnabled()
      reads this
    {
      |selected| > 0
    }

    /** renderSeats: the loop over seats 1..totalSeats that pushes an aisle
        cell before seats 3, 7, 11, ... and then the seat. */
    method RenderSeats() returns (cells: seq<Cell>)
      ensures cells == Grid(TotalSeats(trip))
    {
      var total := TotalSeats(trip);
      cells := [];
      var i := 1;
      while i <= total
        invariant 1 <= i && (i <= total + 1 || i == 1)
        invariant cells == Grid(i - 1)
      {
        if (i - 1) % 4 == 2 {
          cells := cells + [Aisle(i)];
        }
        cells := cells + [Seat(i)];
        i := i + 1;
      }
    }

    /** The seat summary sorts the selection in place, ascending. */
    method SortSelection()
      requires Valid()
      modifies this`selected
      ensures Valid()
      ensures SortedBy(selected, SeatOrder)
      ensures multiset(selected) == multiset(old(selected))
    {
      var sorted: seq<int> := [];
      var i := 0;
      while i < |selected|
        invariant 0 <= i <= |selected|
        invariant SortedBy(sorted, SeatOrder)
        invariant multiset(sorted) == multiset(selected[..i])
      {
        assert selected[..i + 1] == selected[..i] + [selected[i]];
        sorted := InsertBy(selected[i], sorted, SeatOrder);
        i := i + 1;
      }
      assert selected[..i] == selected;
      PermutationKeepsValid(selected, sorted, occupied);
      selected := sorted;
    }

    /** handleCheckout behind the checkout button: nothing while the button
        is disabled, otherwise the draft of trip, seats and total stored
        under "bookingDetails" and a move to the checkout page. The draft
        holds `selected` as it stands; CheckoutAfterRender shows that on a
        rendered page it is ascending. */
    method PressCheckout() returns (action: Option<CheckoutAction>)
      ensures action.None? <==> selected == []
      ensures action.Some? ==>
        && action.value.storageKey == DraftKey
        && action.value.navigateTo == CheckoutPath
        && action.value.draft.tripDetails == trip
        && action.value.draft.selectedSeats == selected
        && action.value.draft.totalPrice == |selected| * trip.priceUsd
    {
      if !CheckoutEnabled() {
        return None;
      }
      var draft := Draft(trip, selected, TotalPrice());
      action := Some(CheckoutAction(DraftKey, draft, CheckoutPath));
    }

    /** The button is pressed on a rendered page, and every render of the seat
        summary has sorted the selection in place first: the stored draft's
        seats are then the selection, ascending. */
    method CheckoutAfterRender() returns (action: Option<CheckoutAction>)
      requires Valid()
      modifies this
      ensures Valid()
      ensures action.None? <==> old(selected) == []
      ensures action.Some? ==>
        && SortedBy(action.value.draft.selectedSeats, SeatOrder)
        && multiset(action.value.draft.selectedSeats) == multiset(old(selected))
        && action.value.draft.tripDetails == trip
        && action.value.draft.totalPrice == |old(selected)| * trip.priceUsd
    {
      SortSelection();
      action := PressCheckout();
    }
  }

  /** A reordering of a valid selection is valid. */
  lemma PermutationKeepsValid(a: seq<int>, b: seq<int>, occupied: set<int>)
    requires ValidSelection(a, occupied)
    requires multiset(b) == multiset(a)
    ensures ValidSelection(b, occupied)
  {
    forall s | s in b
      ensures s !in occupied
    {
      assert s in multiset(b);
    }
    forall i, j | 0 <= i < j < |b|
      ensures b[i] != b[j]
    {
      if b[i] == b[j] {
        var x := b[i];
        assert multiset(b)[x] >= 2 by {
          assert b == b[..j] + [x] + b[j + 1..];
          assert x in b[..j];
        }
        MultiplicityOfDistinct(a, x);
      }
    }
  }

  /** No value occurs twice in a list without repeats. */
  lemma {:induction false} MultiplicityOfDistinct(a: seq<int>, x: int)
    requires NoDuplicates(a)
    ensures multiset(a)[x] <= 1
  {
    if a != [] {
      assert a == [a[0]] + a[1..];
      MultiplicityOfDistinct(a[1..], x);
      if a[0] == x {
        assert x !in a[1..];
      }
    }
  }
}
