// The board of a Ticket to Ride map: cities, routes, tickets and the facts
// that the map loader checks before a map can be played.
module TtrBoard {
  import opened Wrappers

  datatype City = City(id: string)

  type RouteId = int
  type TicketId = int

  // Gray is a route colour only, Loco a card colour only.
  datatype Color =
    | Purple | Blue | Orange | White | Green | Yellow | Black | Red
    | Gray
    | Loco

  const CARD_COLORS: seq<Color> := [Purple, Blue, Orange, White, Green, Yellow, Black, Red]

  datatype Route = Route(id: RouteId, a: City, b: City, color: Color, length: int,
                         tunnel: bool, locos: int, pair: Option<RouteId>)
  {
    predicate IsFerry() { locos > 0 }

    predicate Touches(c: City) { a == c || b == c }
  }

  datatype Ticket = Ticket(id: TicketId, a: City, b: City, points: int, long: bool)

  // The scoring table has gaps: 5 and 7 are not route lengths.
  function PointsForLength(length: int): Option<int> {
    match length
    case 1 => Some(1)
    case 2 => Some(2)
    case 3 => Some(4)
    case 4 => Some(7)
    case 6 => Some(15)
    case 8 => Some(21)
    case _ => None
  }

  datatype Board = Board(
    minPlayers: nat, maxPlayers: nat,
    trainsPerPlayer: int, stationsPerPlayer: int,
    cities: seq<City>,
    routes: seq<Route>,
    routeById: map<RouteId, Route>,
    routesByCity: map<City, seq<RouteId>>,
    ticketById: map<TicketId, Ticket>,
    longTickets: seq<TicketId>, regularTickets: seq<TicketId>)
  {
    // What the loader guarantees of a parsed map and its derived indices.
    ghost predicate Valid() {
      && 2 <= minPlayers && maxPlayers <= 5
      && 0 < trainsPerPlayer <= 64
      && (forall i :: 0 <= i < |routes| ==> routes[i].id in routeById && routeById[routes[i].id] == routes[i])
      && (forall id :: id in routeById ==> ValidRoute(id, routeById[id]) && routeById[id] in routes)
      && (forall id :: id in routeById && routeById[id].pair.Some? ==> ValidPair(id, routeById[id].pair.value))
      && (forall c, id :: c in routesByCity && id in routesByCity[c] ==> id in routeById && routeById[id].Touches(c))
      && (forall id :: id in routeById ==> IndexedAt(id, routeById[id].a) && IndexedAt(id, routeById[id].b))
      && (forall i, j :: 0 <= i < j < |longTickets| ==> longTickets[i] != longTickets[j])
      && (forall i, j :: 0 <= i < j < |regularTickets| ==> regularTickets[i] != regularTickets[j])
      && (forall t :: t in longTickets ==> t !in regularTickets)
    }

    ghost predicate IndexedAt(id: RouteId, c: City) {
      c in routesByCity && id in routesByCity[c]
    }

    ghost predicate ValidRoute(id: RouteId, r: Route) {
      && r.id == id && id >= 1 && r.a != r.b
      && PointsForLength(r.length).Some?
      && 0 <= r.locos <= r.length
      && r.color != Loco
      && (r.locos >= 1 ==> r.color == Gray)
    }

    ghost predicate ValidPair(id: RouteId, other: RouteId)
      requires id in routeById
    {
      && other != id && other in routeById
      && routeById[other].pair == Some(id)
      && routeById[other].length == routeById[id].length
    }
  }
}
