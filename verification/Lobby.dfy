// The seats a lobby hands to a game engine when a table starts.
module Lobby {

  datatype SeatInit = SeatInit(seat: int, user: nat, stack: int)

  function InsertSeat(s: SeatInit, sorted: seq<SeatInit>): seq<SeatInit> {
    if sorted == [] || s.seat <= sorted[0].seat then [s] + sorted else [sorted[0]] + InsertSeat(s, sorted[1..])
  }

  function SortSeats(seats: seq<SeatInit>): seq<SeatInit> {
    if seats == [] then [] else InsertSeat(seats[0], SortSeats(seats[1..]))
  }

  // What the lobby guarantees: nobody sits twice, and no seat is shared.
  ghost predicate DistinctSeats(seats: seq<SeatInit>) {
    && (forall i :: 0 <= i < |seats| ==> seats[i].seat >= 0)
    && (forall i, j {:trigger seats[i], seats[j]} :: 0 <= i < j < |seats| ==> seats[i].seat != seats[j].seat && seats[i].user != seats[j].user)
  }

  ghost predicate InOrder(seats: seq<SeatInit>) {
    forall i, j {:trigger seats[i], seats[j]} :: 0 <= i < j < |seats| ==> seats[i].seat < seats[j].seat && seats[i].user != seats[j].user
  }

  lemma {:induction false} InsertKeepsOrder(s: SeatInit, sorted: seq<SeatInit>)
    requires InOrder(sorted) && forall i :: 0 <= i < |sorted| ==> sorted[i].seat != s.seat && sorted[i].user != s.user
    ensures InOrder(InsertSeat(s, sorted))
    ensures forall e :: e in InsertSeat(s, sorted) <==> e == s || e in sorted
  {
    if sorted == [] || s.seat <= sorted[0].seat {
    } else {
      var rest := InsertSeat(s, sorted[1..]);
      InsertKeepsOrder(s, sorted[1..]);
      assert sorted == [sorted[0]] + sorted[1..];
      forall j | 0 <= j < |rest|
        ensures sorted[0].seat < rest[j].seat && sorted[0].user != rest[j].user
      {
        assert rest[j] in rest;
        assert rest[j] == s || rest[j] in sorted[1..];
      }
    }
  }

  lemma {:induction false} SortedSeats(seats: seq<SeatInit>)
    requires DistinctSeats(seats)
    ensures InOrder(SortSeats(seats)) && forall e :: e in SortSeats(seats) <==> e in seats
  {
    if seats != [] {
      SortedSeats(seats[1..]);
      var rest := SortSeats(seats[1..]);
      assert seats == [seats[0]] + seats[1..];
      forall i | 0 <= i < |rest|
        ensures rest[i].seat != seats[0].seat && rest[i].user != seats[0].user
      {
        assert rest[i] in rest;
        var k :| 0 <= k < |seats[1..]| && seats[1..][k] == rest[i];
        assert seats[k + 1] == rest[i];
      }
      InsertKeepsOrder(seats[0], rest);
    }
  }
}
