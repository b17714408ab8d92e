/**
 * The fleet: the ship records of the game, looked up by id, rotated, and
 * hit. The game keeps ONE fleet for both sides, so a hit on either board
 * counts against the same record.
 */
module Fleet {
  import opened Board

  datatype Ship = Ship(id: int, name: string, size: nat, placed: bool, orientation: Orientation, hits: nat, sunk: bool)

  /** The fleet the game starts with: five unplaced horizontal ships of sizes 5, 4, 3, 3, 2. */
  const StandardFleet := [
    Ship(1, "Carrier", 5, false, Horizontal, 0, false),
    Ship(2, "Battleship", 4, false, Horizontal, 0, false),
    Ship(3, "Cruiser", 3, false, Horizontal, 0, false),
    Ship(4, "Submarine", 3, false, Horizontal, 0, false),
    Ship(5, "Destroyer", 2, false, Horizontal, 0, false)
  ]

  /** `ships.findIndex(ship => ship.id === id)`: the first index holding that id, or -1. */
  function FindShip(ships: seq<Ship>, id: int): (i: int)
    ensures -1 <= i < |ships|
    ensures i == -1 <==> forall j :: 0 <= j < |ships| ==> ships[j].id != id
    ensures 0 <= i ==> ships[i].id == id && forall j :: 0 <= j < i ==> ships[j].id != id
  {
    if |ships| == 0 then -1
    else if ships[0].id == id then 0
    else
      var k := FindShip(ships[1..], id);
      if k == -1 then -1 else k + 1
  }

  /** Two fleets list the same ids in the same order. */
  ghost predicate SameIds(a: seq<Ship>, b: seq<Ship>) {
    |a| == |b| && forall j :: 0 <= j < |a| ==> a[j].id == b[j].id
  }

  /** A lookup by id depends on the ids alone. */
  lemma {:induction false} FindShipSameIds(a: seq<Ship>, b: seq<Ship>, id: int)
    requires SameIds(a, b)
    ensures FindShip(a, id) == FindShip(b, id)
  {
    if |a| > 0 && a[0].id != id {
      FindShipSameIds(a[1..], b[1..], id);
    }
  }

  /** `ships.every(ship => ship.placed)`: the gate of the setup phase. */
  predicate AllPlaced(ships: seq<Ship>) {
    forall j :: 0 <= j < |ships| ==> ships[j].placed
  }

  /** `ships.filter(ship => ship.id <= 5).every(ship => ship.sunk)`: the end-of-game test. */
  predicate FleetSunk(ships: seq<Ship>) {
    forall j :: 0 <= j < |ships| && ships[j].id <= 5 ==> ships[j].sunk
  }

  function Toggle(o: Orientation): (t: Orientation)
    ensures t != o
  {
    if o == Horizontal then Vertical else Horizontal
  }

  /**
   * The fleet after `rotateShip(id)`: the orientation of the ship with that
   * id flips when it exists and is not placed; nothing else changes.
   */
  function Rotated(ships: seq<Ship>, id: int): (r: seq<Ship>)
    ensures |r| == |ships|
    ensures forall j :: 0 <= j < |ships| ==> r[j] == ships[j].(orientation := r[j].orientation)
    ensures forall j :: 0 <= j < |ships| ==>
      (r[j].orientation != ships[j].orientation <==> j == FindShip(ships, id) && !ships[j].placed)
  {
    var i := FindShip(ships, id);
    if i == -1 || ships[i].placed then ships
    else ships[i := ships[i].(orientation := Toggle(ships[i].orientation))]
  }

  /** Rotating the same ship twice restores the fleet. */
  lemma RotateTwice(ships: seq<Ship>, id: int)
    ensures Rotated(Rotated(ships, id), id) == ships
  {
    var once := Rotated(ships, id);
    FindShipSameIds(once, ships, id);
    var twice := Rotated(once, id);
    assert forall j :: 0 <= j < |ships| ==> twice[j] == ships[j];
  }

  /** One hit on a ship: `hits += 1`, and `sunk = true` when hits reaches size exactly. */
  function AfterHit(s: Ship): (t: Ship)
    ensures t == s.(hits := s.hits + 1, sunk := t.sunk)
    ensures t.sunk <==> s.sunk || s.hits + 1 == s.size
  {
    s.(hits := s.hits + 1, sunk := if s.hits + 1 == s.size then true else s.sunk)
  }

  /** The ship with this id exists and the next hit on it sinks it (the scoring event). */
  predicate SinksOn(ships: seq<Ship>, id: int) {
    var i := FindShip(ships, id);
    i >= 0 && ships[i].hits + 1 == ships[i].size
  }

  /** The fleet after a hit on a cell carrying `id`; an unknown id changes nothing. */
  function RegisterHit(ships: seq<Ship>, id: int): (r: seq<Ship>)
    ensures |r| == |ships|
  {
    var i := FindShip(ships, id);
    if i < 0 then ships else ships[i := AfterHit(ships[i])]
  }

  /**
   * A hit never undoes anything: counters only grow, `sunk` never reverts,
   * names, sizes, ids and placement are kept, and a fleet can only become
   * fully sunk through the hit that sinks a ship.
   */
  lemma RegisterHitMonotone(ships: seq<Ship>, id: int)
    ensures var r := RegisterHit(ships, id);
      && SameIds(r, ships)
      && (forall j :: 0 <= j < |ships| ==>
            && r[j].hits >= ships[j].hits
            && (ships[j].sunk ==> r[j].sunk)
            && r[j] == ships[j].(hits := r[j].hits, sunk := r[j].sunk))
      && (FleetSunk(ships) ==> FleetSunk(r))
      && (!FleetSunk(ships) && FleetSunk(r) ==> SinksOn(ships, id))
  {
    var r := RegisterHit(ships, id);
    var i := FindShip(ships, id);
    if !FleetSunk(ships) && FleetSunk(r) {
      var j :| 0 <= j < |ships| && ships[j].id <= 5 && !ships[j].sunk;
      assert r[j].sunk;
      assert i == j;
    }
  }

  /** The sum of all hit counters of the fleet. */
  function TotalHits(ships: seq<Ship>): nat {
    if ships == [] then 0 else ships[0].hits + TotalHits(ships[1..])
  }

  lemma {:induction false} TotalHitsUpdate(ships: seq<Ship>, i: nat, s: Ship)
    requires i < |ships|
    ensures TotalHits(ships[i := s]) + ships[i].hits == TotalHits(ships) + s.hits
  {
    if i > 0 {
      TotalHitsUpdate(ships[1..], i - 1, s);
      assert ships[i := s][1..] == ships[1..][i - 1 := s];
    }
  }

  /** Every shot on a ship cell adds exactly one hit to the shared fleet, when the id is known. */
  lemma RegisterHitCountsOne(ships: seq<Ship>, id: int)
    ensures TotalHits(RegisterHit(ships, id)) == TotalHits(ships) + (if FindShip(ships, id) >= 0 then 1 else 0)
  {
    var i := FindShip(ships, id);
    if i >= 0 {
      TotalHitsUpdate(ships, i, AfterHit(ships[i]));
    }
  }

  /** A ship after n hits. */
  function HitTimes(s: Ship, n: nat): Ship {
    if n == 0 then s else AfterHit(HitTimes(s, n - 1))
  }

  /**
   * Hits on one ship: after n of them the counter has grown by n, and the
   * ship is sunk exactly when it already was or the counter passed through
   * its size. A ship whose counter is already beyond its size (the shared
   * fleet allows it) never sinks again.
   */
  lemma {:induction false} SinksWhenHitsReachSize(s: Ship, n: nat)
    ensures HitTimes(s, n).hits == s.hits + n
    ensures HitTimes(s, n).sunk <==> s.sunk || s.hits < s.size <= s.hits + n
    ensures HitTimes(s, n) == s.(hits := s.hits + n, sunk := HitTimes(s, n).sunk)
  {
    if n > 0 {
      SinksWhenHitsReachSize(s, n - 1);
    }
  }

  /** The scoring event fires on exactly one hit of a fresh ship: the size-th. */
  lemma SinkEventOnce(s: Ship, k: nat)
    requires s.hits == 0 && !s.sunk
    ensures HitTimes(s, k).hits + 1 == s.size <==> k + 1 == s.size
    ensures !HitTimes(s, k).sunk && HitTimes(s, k + 1).sunk <==> k + 1 == s.size
  {
    SinksWhenHitsReachSize(s, k);
    SinksWhenHitsReachSize(s, k + 1);
  }

  /** The fleet after `resetGame`: every ship unplaced, horizontal, unhit and afloat. */
  function ResetFleet(ships: seq<Ship>): (r: seq<Ship>)
    ensures |r| == |ships| && SameIds(r, ships)
    ensures forall j :: 0 <= j < |r| ==>
      && !r[j].placed && r[j].orientation == Horizontal && r[j].hits == 0 && !r[j].sunk
      && r[j].name == ships[j].name && r[j].size == ships[j].size
  {
    seq(|ships|, j requires 0 <= j < |ships| =>
      ships[j].(placed := false, orientation := Horizontal, hits := 0, sunk := false))
  }

  /** Resetting a fleet with the standard roster gives back the initial fleet. */
  lemma ResetRestoresStandardFleet(ships: seq<Ship>)
    requires |ships| == |StandardFleet|
    requires forall j :: 0 <= j < |ships| ==>
      ships[j].id == StandardFleet[j].id && ships[j].name == StandardFleet[j].name && ships[j].size == StandardFleet[j].size
    ensures ResetFleet(ships) == StandardFleet
  {
    var r := ResetFleet(ships);
    assert forall j :: 0 <= j < |r| ==> r[j] == StandardFleet[j];
  }
}
