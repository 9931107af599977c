// Borrowing at stations.
module TtrStations {
  // At final scoring every station may borrow one opponent route at its city; the
  // choice that serves the player's tickets best is found by exhaustive search.
  import opened Wrappers
  import opened Sorting
  import opened TtrBoard
  import opened TtrUnionFind

  // Route ids start at 1, so 0 marks a station that borrows nothing.
  const NO_BORROW: RouteId := 0

  datatype StationOption = StationOption(city: City, routeId: RouteId)

  datatype Outcome = Outcome(assignment: map<City, RouteId>, net: int,
                             completed: seq<TicketId>, missed: seq<TicketId>)

  // ---------------------------------------------------------------------
  // What a choice of borrows is worth
  // ---------------------------------------------------------------------

  ghost predicate Borrowable(board: Board, owner: map<RouteId, int>, seat: int, city: City, id: RouteId) {
    && id in board.routeById && board.routeById[id].Touches(city)
    && id in owner && owner[id] != seat
  }

  // One option per station city: nothing, or an opponent's route at that city.
  ghost predicate IsChoice(board: Board, owner: map<RouteId, int>, seat: int, cities: seq<City>, choice: seq<StationOption>) {
    && |choice| == |cities|
    && forall i :: 0 <= i < |cities| ==> Allowed(board, owner, seat, cities[i], choice[i])
  }

  ghost predicate Allowed(board: Board, owner: map<RouteId, int>, seat: int, city: City, opt: StationOption) {
    opt.city == city && (opt.routeId == NO_BORROW || Borrowable(board, owner, seat, city, opt.routeId))
  }

  ghost predicate Usable(board: Board, claimed: seq<RouteId>, choice: seq<StationOption>, id: RouteId) {
    && id in board.routeById
    && (id in claimed || exists i :: 0 <= i < |choice| && choice[i].routeId == id && id != NO_BORROW)
  }

  // The links a player travels on: own routes and borrowed ones.
  ghost function Network(board: Board, claimed: seq<RouteId>, choice: seq<StationOption>): Links {
    set id | id in board.routeById && Usable(board, claimed, choice, id) ::
      (board.routeById[id].a, board.routeById[id].b)
  }

  // A ticket counts for its points when the network joins its cities and
  // against them otherwise; ids without a ticket count for nothing.
  ghost function Net(board: Board, links: Links, ids: seq<TicketId>): int {
    if ids == [] then 0
    else
      var n := |ids| - 1;
      Net(board, links, ids[..n]) +
      if ids[n] !in board.ticketById then 0
      else if Serves(board, links, ids[n]) then board.ticketById[ids[n]].points
      else -board.ticketById[ids[n]].points
  }

  ghost predicate Serves(board: Board, links: Links, id: TicketId) {
    id in board.ticketById && Joined(links, board.ticketById[id].a, board.ticketById[id].b)
  }

  // The known tickets among `ids` that are served (or not), in order.
  ghost function Sorted(board: Board, links: Links, ids: seq<TicketId>, served: bool): seq<TicketId> {
    if ids == [] then []
    else
      var n := |ids| - 1;
      Sorted(board, links, ids[..n], served) +
      if ids[n] in board.ticketById && Serves(board, links, ids[n]) == served then [ids[n]] else []
  }

  ghost predicate IsOutcome(board: Board, claimed: seq<RouteId>, tickets: seq<TicketId>, choice: seq<StationOption>, o: Outcome) {
    var links := Network(board, claimed, choice);
    && o.net == Net(board, links, Sort(tickets))
    && o.completed == Sorted(board, links, Sort(tickets), true)
    && o.missed == Sorted(board, links, Sort(tickets), false)
    && o.assignment == Borrowed(board, choice)
  }

  // Only stations that really borrow appear in the reported assignment.
  ghost function Borrowed(board: Board, choice: seq<StationOption>): map<City, RouteId> {
    if choice == [] then map[]
    else
      var n := |choice| - 1;
      var before := Borrowed(board, choice[..n]);
      if choice[n].routeId == NO_BORROW || choice[n].routeId !in board.routeById then before
      else before[choice[n].city := choice[n].routeId]
  }

  ghost function Worth(board: Board, claimed: seq<RouteId>, tickets: seq<TicketId>, choice: seq<StationOption>): int {
    Net(board, Network(board, claimed, choice), Sort(tickets))
  }

  // ---------------------------------------------------------------------
  // Scoring one choice
  // ---------------------------------------------------------------------

  method EvaluateAssignment(board: Board, claimed: seq<RouteId>, combo: seq<StationOption>, tickets: seq<TicketId>)
    returns (o: Outcome)
    ensures IsOutcome(board, claimed, tickets, combo, o)
  {
    var uf := new UnionFind();
    for i := 0 to |claimed|
      invariant uf.Valid() && fresh(uf)
      invariant uf.links == Network(board, claimed[..i], [])
    {
      assert claimed[..i + 1] == claimed[..i] + [claimed[i]];
      var id := claimed[i];
      GrowClaimed(board, claimed[..i], id);
      if id in board.routeById {
        uf.Union(board.routeById[id].a, board.routeById[id].b);
      }
    }
    assert claimed[..|claimed|] == claimed;
    var assignment := Borrow(uf, board, claimed, combo);
    var net, completed, missed := ScoreTickets(uf, board, tickets);
    o := Outcome(assignment, net, completed, missed);
  }

  method Borrow(uf: UnionFind, board: Board, ghost claimed: seq<RouteId>, combo: seq<StationOption>)
    returns (assignment: map<City, RouteId>)
    requires uf.Valid() && uf.links == Network(board, claimed, [])
    modifies uf
    ensures uf.Valid() && uf.links == Network(board, claimed, combo)
    ensures assignment == Borrowed(board, combo)
  {
    assignment := map[];
    for i := 0 to |combo|
      invariant uf.Valid() && uf.links == Network(board, claimed, combo[..i])
      invariant assignment == Borrowed(board, combo[..i])
    {
      assert combo[..i + 1] == combo[..i] + [combo[i]];
      assert combo[..i + 1][..i] == combo[..i];
      var opt := combo[i];
      GrowBorrowed(board, claimed, combo[..i], opt);
      if opt.routeId != NO_BORROW && opt.routeId in board.routeById {
        uf.Union(board.routeById[opt.routeId].a, board.routeById[opt.routeId].b);
        assignment := assignment[opt.city := opt.routeId];
      }
    }
    assert combo[..|combo|] == combo;
  }

  method ScoreTickets(uf: UnionFind, board: Board, tickets: seq<TicketId>)
    returns (net: int, completed: seq<TicketId>, missed: seq<TicketId>)
    requires uf.Valid()
    modifies uf
    ensures net == Net(board, old(uf.links), Sort(tickets))
    ensures completed == Sorted(board, old(uf.links), Sort(tickets), true)
    ensures missed == Sorted(board, old(uf.links), Sort(tickets), false)
  {
    ghost var links := uf.links;
    var ids := Sort(tickets);
    net, completed, missed := 0, [], [];
    for i := 0 to |ids|
      invariant uf.Valid() && uf.links == links
      invariant net == Net(board, links, ids[..i])
      invariant completed == Sorted(board, links, ids[..i], true)
      invariant missed == Sorted(board, links, ids[..i], false)
    {
      assert ids[..i + 1][..i] == ids[..i];
      var id := ids[i];
      if id in board.ticketById {
        var tk := board.ticketById[id];
        var joined := uf.Connected(tk.a, tk.b);
        if joined {
          net, completed := net + tk.points, completed + [id];
        } else {
          net, missed := net - tk.points, missed + [id];
        }
      }
    }
    assert ids[..|ids|] == ids;
  }

  lemma GrowClaimed(board: Board, claimed: seq<RouteId>, id: RouteId)
    ensures Network(board, claimed + [id], []) ==
            Network(board, claimed, []) +
            (if id in board.routeById then {(board.routeById[id].a, board.routeById[id].b)} else {})
  {
    assert forall x :: Usable(board, claimed + [id], [], x) <==> Usable(board, claimed, [], x) || (x == id && id in board.routeById);
  }

  lemma GrowBorrowed(board: Board, claimed: seq<RouteId>, combo: seq<StationOption>, opt: StationOption)
    ensures Network(board, claimed, combo + [opt]) ==
            Network(board, claimed, combo) +
            (if opt.routeId != NO_BORROW && opt.routeId in board.routeById
             then {(board.routeById[opt.routeId].a, board.routeById[opt.routeId].b)} else {})
  {
    var more := combo + [opt];
    forall x
      ensures Usable(board, claimed, more, x) <==>
              Usable(board, claimed, combo, x) || (x == opt.routeId && x != NO_BORROW && x in board.routeById)
    {
      assert more[|combo|] == opt;
      assert forall i :: 0 <= i < |combo| ==> more[i] == combo[i];
    }
  }

  // ---------------------------------------------------------------------
  // The options of each station
  // ---------------------------------------------------------------------

  ghost predicate OptionsOf(board: Board, owner: map<RouteId, int>, seat: int, city: City, opts: seq<StationOption>) {
    && |opts| > 0 && opts[0] == StationOption(city, NO_BORROW)
    && RoutesAscend(opts)
    && forall opt :: opt in opts <==> Allowed(board, owner, seat, city, opt)
  }

  // Borrowing nothing comes first, then the routes by ascending id.
  ghost predicate RoutesAscend(opts: seq<StationOption>) {
    forall i, j :: 1 <= i < j < |opts| ==> opts[i].routeId <= opts[j].routeId
  }

  method StationOptionSets(board: Board, owner: map<RouteId, int>, seat: int, cities: seq<City>)
    returns (sets: seq<seq<StationOption>>)
    requires board.Valid()
    ensures |sets| == |cities|
    ensures forall i :: 0 <= i < |cities| ==> OptionsOf(board, owner, seat, cities[i], sets[i])
  {
    sets := [];
    for i := 0 to |cities|
      invariant |sets| == i
      invariant forall k :: 0 <= k < i ==> OptionsOf(board, owner, seat, cities[k], sets[k])
    {
      var opts := OptionsAt(board, owner, seat, cities[i]);
      sets := sets + [opts];
    }
  }

  method OptionsAt(board: Board, owner: map<RouteId, int>, seat: int, city: City) returns (opts: seq<StationOption>)
    requires board.Valid()
    ensures OptionsOf(board, owner, seat, city, opts)
  {
    var incident := if city in board.routesByCity then board.routesByCity[city] else [];
    var ids := Sort(incident);
    SortMembers(incident);
    SortAscending(incident);
    opts := [StationOption(city, NO_BORROW)];
    for i := 0 to |ids|
      invariant |opts| > 0 && opts[0] == StationOption(city, NO_BORROW)
      invariant RoutesAscend(opts) && forall j :: 1 <= j < |opts| ==> opts[j].routeId in ids[..i]
      invariant forall opt :: opt in opts <==>
                  opt.city == city && (opt.routeId == NO_BORROW ||
                    (opt.routeId in ids[..i] && opt.routeId in owner && owner[opt.routeId] != seat))
    {
      assert ids[..i + 1] == ids[..i] + [ids[i]];
      if ids[i] in owner && owner[ids[i]] != seat {
        opts := opts + [StationOption(city, ids[i])];
      }
    }
    assert ids[..|ids|] == ids;
    forall id
      ensures id in ids <==> id in board.routeById && board.routeById[id].Touches(city)
    {
      if id in board.routeById {
        assert board.IndexedAt(id, board.routeById[id].a) && board.IndexedAt(id, board.routeById[id].b);
      }
    }
  }

  // ---------------------------------------------------------------------
  // The exhaustive search
  // ---------------------------------------------------------------------

  // `full` takes one option from every set and starts with `prefix`.
  ghost predicate Completes(options: seq<seq<StationOption>>, prefix: seq<StationOption>, full: seq<StationOption>) {
    && |full| == |options| && prefix <= full
    && forall i :: 0 <= i < |full| ==> full[i] in options[i]
  }

  class AssignmentSearch {
    const board: Board
    const claimed: seq<RouteId>
    const tickets: seq<TicketId>
    const options: seq<seq<StationOption>>
    var combo: seq<StationOption>
    var best: Option<Outcome>

    constructor (board: Board, claimed: seq<RouteId>, tickets: seq<TicketId>, options: seq<seq<StationOption>>)
      ensures this.board == board && this.claimed == claimed && this.tickets == tickets && this.options == options
      ensures combo == [] && best == None
    {
      this.board, this.claimed, this.tickets, this.options := board, claimed, tickets, options;
      combo, best := [], None;
    }

    ghost predicate Prefix()
      reads this
    {
      |combo| <= |options| && forall i :: 0 <= i < |combo| ==> combo[i] in options[i]
    }

    // `after` is `before` or the outcome of a completion of `prefix`, and never worse.
    ghost predicate Improves(before: Option<Outcome>, after: Option<Outcome>, prefix: seq<StationOption>) {
      && (after == before ||
          (after.Some? && exists full :: Completes(options, prefix, full) && IsOutcome(board, claimed, tickets, full, after.value)))
      && (before.Some? ==> after.Some? && before.value.net <= after.value.net)
    }

    // No completion of `prefix` is worth more than `o`.
    ghost predicate Tops(o: Option<Outcome>, prefix: seq<StationOption>) {
      && o.Some?
      && forall full :: Completes(options, prefix, full) ==> Worth(board, claimed, tickets, full) <= o.value.net
    }

    // Nor is one that goes on with one of the first k options.
    ghost predicate TopsFirst(o: Option<Outcome>, prefix: seq<StationOption>, k: nat)
      requires |prefix| < |options| && k <= |options[|prefix|]|
    {
      forall full :: Completes(options, prefix, full) && full[|prefix|] in options[|prefix|][..k] ==>
        o.Some? && Worth(board, claimed, tickets, full) <= o.value.net
    }

    lemma TopsOneMore(o: Option<Outcome>, o': Option<Outcome>, prefix: seq<StationOption>, k: nat)
      requires |prefix| < |options| && k < |options[|prefix|]|
      requires TopsFirst(o, prefix, k) && (o.Some? ==> o'.Some? && o.value.net <= o'.value.net)
      requires Tops(o', prefix + [options[|prefix|][k]])
      ensures TopsFirst(o', prefix, k + 1)
    {
      var opts := options[|prefix|];
      forall full | Completes(options, prefix, full) && full[|prefix|] in opts[..k + 1]
        ensures Worth(board, claimed, tickets, full) <= o'.value.net
      {
        assert opts[..k + 1] == opts[..k] + [opts[k]];
        if full[|prefix|] == opts[k] {
          assert full[..|prefix| + 1] == prefix + [opts[k]];
        }
      }
    }

    lemma ImprovesFrom(o: Option<Outcome>, o': Option<Outcome>, o'': Option<Outcome>, prefix: seq<StationOption>, opt: StationOption)
      requires |prefix| < |options|
      requires Improves(o, o', prefix) && Improves(o', o'', prefix + [opt])
      ensures Improves(o, o'', prefix)
    {
      if o'' != o' {
        var full :| Completes(options, prefix + [opt], full) && IsOutcome(board, claimed, tickets, full, o''.value);
        assert Completes(options, prefix, full);
      }
    }

    lemma TopsAll(o: Option<Outcome>, prefix: seq<StationOption>)
      requires |prefix| < |options| && TopsFirst(o, prefix, |options[|prefix|]|) && o.Some?
      ensures Tops(o, prefix)
    {
      assert options[|prefix|][..|options[|prefix|]|] == options[|prefix|];
    }

    lemma TopsLeaf(o: Outcome, o': Option<Outcome>, prefix: seq<StationOption>)
      requires |prefix| == |options| && IsOutcome(board, claimed, tickets, prefix, o)
      requires o'.Some? && o.net <= o'.value.net
      ensures Tops(o', prefix)
    {
      forall full | Completes(options, prefix, full)
        ensures Worth(board, claimed, tickets, full) <= o'.value.net
      {
        assert full == prefix;
      }
    }

    // Tries every completion of `combo` and puts `combo` back as it was.
    method Recurse()
      requires Prefix() && forall i :: 0 <= i < |options| ==> options[i] != []
      modifies this
      ensures combo == old(combo)
      ensures Improves(old(best), best, combo) && Tops(best, combo)
      decreases |options| - |combo|
    {
      var i := |combo|;
      if i == |options| {
        var o := EvaluateAssignment(board, claimed, combo, tickets);
        if best.None? || o.net > best.value.net {
          best := Some(o);
          assert Completes(options, combo, combo);
        }
        TopsLeaf(o, best, combo);
        return;
      }
      ghost var prefix := combo;
      for k := 0 to |options[i]|
        invariant combo == prefix
        invariant Improves(old(best), best, prefix) && TopsFirst(best, prefix, k)
        invariant k > 0 ==> best.Some?
      {
        ghost var before := best;
        combo := combo + [options[i][k]];
        Recurse();
        combo := combo[..|combo| - 1];
        ImprovesFrom(old(best), before, best, prefix, options[i][k]);
        TopsOneMore(before, best, prefix, k);
      }
      TopsAll(best, prefix);
    }
  }

  // The best use of a player's stations: the outcome of some choice, and no
  // choice is worth more.
  method BestStationAssignment(board: Board, owner: map<RouteId, int>, seat: int,
                               claimed: seq<RouteId>, cities: seq<City>, tickets: seq<TicketId>)
    returns (o: Outcome)
    requires board.Valid()
    ensures exists choice :: IsChoice(board, owner, seat, cities, choice) && IsOutcome(board, claimed, tickets, choice, o)
    ensures forall choice :: IsChoice(board, owner, seat, cities, choice) ==> Worth(board, claimed, tickets, choice) <= o.net
  {
    var options := StationOptionSets(board, owner, seat, cities);
    var search := new AssignmentSearch(board, claimed, tickets, options);
    search.Recurse();
    o := search.best.value;
    forall choice
      ensures IsChoice(board, owner, seat, cities, choice) <==> Completes(options, [], choice)
    {
      if |choice| == |cities| {
        forall i | 0 <= i < |cities|
          ensures choice[i] in options[i] <==> Allowed(board, owner, seat, cities[i], choice[i])
        {
          assert OptionsOf(board, owner, seat, cities[i], options[i]);
        }
      }
    }
  }
}
