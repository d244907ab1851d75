/**
 * A room's military situation: four sparse per-tile grids adding up the
 * damage and healing hostile and own forces can bring to each tile, the
 * target priorities derived from them, the tower's choice of target, and the
 * military value of a creep's body.
 */
module Military {
  import opened Common

  /** The four kinds of assertion kept per tile. */
  datatype Kind = Damage | Healing | MyDamage | MyHealing

  /** A sparse grid: column `x`, then row `y`, to the amount asserted there. */
  type Grid = map<int, map<int, real>>

  /** `sitRep`: one grid per kind. */
  datatype SitRep = SitRep(damage: Grid, healing: Grid, myDamage: Grid, myHealing: Grid)
  {
    function Of(kind: Kind): Grid
    {
      match kind
      case Damage => damage
      case Healing => healing
      case MyDamage => myDamage
      case MyHealing => myHealing
    }

    function With(kind: Kind, g: Grid): (r: SitRep)
      ensures r.Of(kind) == g
      ensures forall k :: k != kind ==> r.Of(k) == Of(k)
    {
      match kind
      case Damage => this.(damage := g)
      case Healing => this.(healing := g)
      case MyDamage => this.(myDamage := g)
      case MyHealing => this.(myHealing := g)
    }
  }

  const EmptySitRep := SitRep(map[], map[], map[], map[])

  /** `getMilitaryAssertion` on one grid: the amount stored at the tile, or 0 when there is none. */
  function Cell(g: Grid, x: int, y: int): real
  {
    if x in g && y in g[x] && g[x][y] != 0.0 then g[x][y] else 0.0
  }

  /** The tile lies on the 50×50 room grid. */
  predicate OnGrid(x: int, y: int)
  {
    0 <= x <= 49 && 0 <= y <= 49
  }

  /**
   * The grid after `addMilitaryAssertion`: a positive amount on a tile of
   * the room is added to that tile's sum, creating the column if needed;
   * anything else leaves the grid as it was.
   */
  function Asserted(g: Grid, x: int, y: int, amount: real): (r: Grid)
    ensures !OnGrid(x, y) || amount <= 0.0 ==> r == g
    ensures forall x', y' :: Cell(r, x', y') ==
              Cell(g, x', y') + (if x' == x && y' == y && OnGrid(x, y) && amount > 0.0 then amount else 0.0)
  {
    if x < 0 || x > 49 || y < 0 || y > 49 || amount <= 0.0 then g
    else
      var column := if x in g then g[x] else map[];
      var previous := if y in column && column[y] != 0.0 then column[y] else 0.0;
      g[x := column[y := previous + amount]]
  }

  /** Two assertions on the same tile add up, whatever their order. */
  lemma AssertionsCommute(g: Grid, x1: int, y1: int, a1: real, x2: int, y2: int, a2: real)
    ensures forall x, y :: Cell(Asserted(Asserted(g, x1, y1, a1), x2, y2, a2), x, y) ==
                           Cell(Asserted(Asserted(g, x2, y2, a2), x1, y1, a1), x, y)
  {
  }

  /**
   * Reading back after an assertion: the asserted tile of the asserted kind
   * has grown by the amount when it is on the grid and positive, and every
   * other tile of every kind reads as before.
   */
  lemma AssertionRead(s: SitRep, kind: Kind, x: int, y: int, amount: real)
    ensures forall x', y', k :: Cell(s.With(kind, Asserted(s.Of(kind), x, y, amount)).Of(k), x', y') ==
              Cell(s.Of(k), x', y') + (if k == kind && x' == x && y' == y && OnGrid(x, y) && amount > 0.0 then amount else 0.0)
  {
  }

  /** `bodyPartValues`: how much each part type is worth militarily; unknown types are worth nothing. */
  function PartValue(partType: string): real
  {
    if partType == "attack" then 1.0
    else if partType == "claim" then 10.0
    else if partType == "heal" then 5.0
    else if partType == "ranged_attack" then 2.0
    else if partType == "work" then 1.0
    else 0.0
  }

  /** A body part and its remaining hits (out of 100). */
  datatype Part = Part(partType: string, hits: real)

  /** A part's weight: a tenth for existing, the rest in proportion to its hits. */
  function Factor(p: Part): real
  {
    0.1 + (0.9 * p.hits) / 100.0
  }

  /** `getMilitaryValue`: each part's value weighted by its remaining hits. */
  function MilitaryValue(body: seq<Part>): real
  {
    if body == [] then 0.0
    else MilitaryValue(body[..|body| - 1]) + Factor(body[|body| - 1]) * PartValue(body[|body| - 1].partType)
  }

  /** A body whose parts have non-negative hits has a non-negative military value. */
  lemma {:induction false} MilitaryValueNonNegative(body: seq<Part>)
    requires forall i :: 0 <= i < |body| ==> body[i].hits >= 0.0
    ensures MilitaryValue(body) >= 0.0
  {
    if body != [] {
      var front := body[..|body| - 1];
      assert forall i :: 0 <= i < |front| ==> front[i] == body[i];
      MilitaryValueNonNegative(front);
      var last := body[|body| - 1];
      assert Factor(last) > 0.0;
      assert PartValue(last.partType) >= 0.0;
    }
  }

  /** A creep on the room grid, with the target priority the room gives it. */
  class Creep {
    const x: int
    const y: int
    const body: seq<Part>
    var militaryPriority: Option<real>

    constructor(x: int, y: int, body: seq<Part>)
      ensures this.x == x && this.y == y && this.body == body && militaryPriority.None?
    {
      this.x := x;
      this.y := y;
      this.body := body;
      militaryPriority := None;
    }

    /** `getMilitaryValue`: adds up each part's weighted value. */
    method GetMilitaryValue() returns (value: real)
      ensures value == MilitaryValue(body)
    {
      value := 0.0;
      var i := 0;
      while i < |body|
        invariant 0 <= i <= |body|
        invariant value == MilitaryValue(body[..i])
      {
        var part := body[i];
        PrefixGrow(body, i);
        var factor := 0.1 + (0.9 * part.hits) / 100.0;
        value := value + factor * PartValue(part.partType);
        i := i + 1;
      }
      PrefixWhole(body);
    }
  }

  /** The objects `assertTargetPriorities` may write: the hostile creeps. */
  function Objects(creeps: seq<Creep>): set<object>
  {
    set i | 0 <= i < |creeps| :: creeps[i]
  }

  /** The priority `assertTargetPriorities` gives a creep, read from the grids; nothing where it keeps its own. */
  function Assigned(c: Creep, s: SitRep): Option<real>
  {
    Priority(c.body, Cell(s.myDamage, c.x, c.y), Cell(s.healing, c.x, c.y))
  }

  /** The creep holds the priority it was assigned, or the one it had before when it was assigned none. */
  predicate Settled(c: Creep, s: SitRep, before: Option<real>)
    reads c
  {
    c.militaryPriority == (if Assigned(c, s).Some? then Assigned(c, s) else before)
  }

  /** The priority a creep gets where our damage outweighs their healing: its value times the difference. */
  function Priority(body: seq<Part>, potentialDamage: real, potentialHealing: real): Option<real>
  {
    if potentialDamage > potentialHealing then Some(MilitaryValue(body) * (potentialDamage - potentialHealing))
    else None
  }

  /** A priority set only where our damage outweighs their healing is positive whenever the creep has value. */
  lemma PriorityPositive(body: seq<Part>, potentialDamage: real, potentialHealing: real)
    requires MilitaryValue(body) > 0.0
    ensures Priority(body, potentialDamage, potentialHealing).Some? ==> Priority(body, potentialDamage, potentialHealing).value > 0.0
    ensures Priority(body, potentialDamage, potentialHealing).Some? <==> potentialDamage > potentialHealing
  {
  }

  /**
   * The index of the tower's target among the priorities read: the first
   * creep with a positive priority strictly above every earlier one, that is
   * the first of the highest, or nothing when no priority is positive. A
   * priority of 0 is falsy and is skipped like a missing one.
   */
  function TowerTarget(priorities: seq<Option<real>>): (r: Option<nat>)
    ensures r.Some? ==> r.value < |priorities| && priorities[r.value].Some? && priorities[r.value].value > 0.0
  {
    if priorities == [] then None
    else
      var best := TowerTarget(priorities[..|priorities| - 1]);
      var p := priorities[|priorities| - 1];
      if p.Some? && p.value != 0.0 && p.value > 0.0 &&
         (best.None? || priorities[..|priorities| - 1][best.value].value < p.value)
      then Some(|priorities| - 1)
      else best
  }

  /** The priority that counts for targeting: a positive one, or 0. */
  function Positive(p: Option<real>): real
  {
    if p.Some? && p.value > 0.0 then p.value else 0.0
  }

  /**
   * The tower target is a creep with a positive priority that no other creep
   * exceeds and that every earlier creep falls short of; without a positive
   * priority there is none.
   */
  lemma {:induction false} TowerTargetIsFirstHighest(priorities: seq<Option<real>>)
    ensures var t := TowerTarget(priorities);
            (t.None? <==> forall i :: 0 <= i < |priorities| ==> Positive(priorities[i]) == 0.0) &&
            (t.Some? ==>
               t.value < |priorities| && Positive(priorities[t.value]) > 0.0 &&
               priorities[t.value].Some? && Positive(priorities[t.value]) == priorities[t.value].value &&
               (forall i :: 0 <= i < |priorities| ==> Positive(priorities[i]) <= Positive(priorities[t.value])) &&
               (forall i :: 0 <= i < t.value ==> Positive(priorities[i]) < Positive(priorities[t.value])))
  {
    if priorities != [] {
      var front := priorities[..|priorities| - 1];
      TowerTargetIsFirstHighest(front);
      assert forall i :: 0 <= i < |front| ==> front[i] == priorities[i];
    }
  }

  /** `room.sitRep` and the hostile creeps of `room.militaryObjects`. */
  class Room {
    var sitRep: SitRep
    var creeps: seq<Creep>

    constructor(creeps: seq<Creep>)
      ensures sitRep == EmptySitRep && this.creeps == creeps
    {
      sitRep := EmptySitRep;
      this.creeps := creeps;
    }

    /** The start of `assertMilitarySituation`: all four grids are emptied before anything is asserted. */
    method ResetSitRep()
      modifies this
      ensures sitRep == EmptySitRep && creeps == old(creeps)
      ensures forall kind, x, y :: GetMilitaryAssertion(x, y, kind) == 0.0
    {
      sitRep := EmptySitRep;
    }

    /** `addMilitaryAssertion`: adds the amount to one tile of one grid. */
    method AddMilitaryAssertion(x: int, y: int, amount: real, kind: Kind)
      modifies this
      ensures sitRep == old(sitRep).With(kind, Asserted(old(sitRep).Of(kind), x, y, amount))
      ensures creeps == old(creeps)
    {
      if x < 0 || x > 49 || y < 0 || y > 49 || amount <= 0.0 {
        return;
      }
      var grid := sitRep.Of(kind);
      var column := if x in grid then grid[x] else map[];
      var previous := if y in column && column[y] != 0.0 then column[y] else 0.0;
      sitRep := sitRep.With(kind, grid[x := column[y := previous + amount]]);
    }

    /** `getMilitaryAssertion`: the sum asserted at a tile, 0 where nothing was. */
    function GetMilitaryAssertion(x: int, y: int, kind: Kind): real
      reads this
    {
      Cell(sitRep.Of(kind), x, y)
    }

    /**
     * `assertTargetPriorities`: every hostile creep our damage at its tile
     * outweighs the healing there gets its value times the difference as its
     * priority; the others keep theirs.
     */
    method AssertTargetPriorities()
      modifies Objects(creeps)
      ensures forall i :: 0 <= i < |creeps| ==> Settled(creeps[i], sitRep, old(creeps[i].militaryPriority))
    {
      var i := 0;
      while i < |creeps|
        invariant 0 <= i <= |creeps|
        invariant forall j :: 0 <= j < i ==> Settled(creeps[j], sitRep, old(creeps[j].militaryPriority))
        invariant forall j :: i <= j < |creeps| ==>
                    creeps[j].militaryPriority == old(creeps[j].militaryPriority) ||
                    Settled(creeps[j], sitRep, old(creeps[j].militaryPriority))
      {
        var creep := creeps[i];
        var potentialDamage := GetMilitaryAssertion(creep.x, creep.y, MyDamage);
        var potentialHealing := GetMilitaryAssertion(creep.x, creep.y, Healing);
        assert Assigned(creep, sitRep) == Priority(creep.body, potentialDamage, potentialHealing);
        if potentialDamage > potentialHealing {
          var value := creep.GetMilitaryValue();
          assert value * (potentialDamage - potentialHealing) == MilitaryValue(creep.body) * (potentialDamage - potentialHealing);
          var priority := value * (potentialDamage - potentialHealing);
          assert Priority(creep.body, potentialDamage, potentialHealing).value == priority;
          assert Priority(creep.body, potentialDamage, potentialHealing) == Some(priority);
          creep.militaryPriority := Some(priority);
        }
        assert Settled(creep, sitRep, old(creep.militaryPriority));
        i := i + 1;
      }
    }

    /** The priorities of the hostile creeps, in order. */
    function Priorities(): seq<Option<real>>
      reads this, Objects(creeps)
    {
      seq(|creeps|, i reads this, Objects(creeps) requires 0 <= i < |creeps| => creeps[i].militaryPriority)
    }

    /** `getTowerTarget`: the first hostile creep with the highest positive priority, or none. */
    method GetTowerTarget() returns (target: Creep?)
      ensures var t := TowerTarget(Priorities());
              (t.None? ==> target == null) && (t.Some? ==> t.value < |creeps| && target == creeps[t.value])
    {
      ghost var priorities := Priorities();
      assert |priorities| == |creeps|;
      target := null;
      ghost var index: Option<nat> := None;
      var i := 0;
      while i < |creeps|
        invariant 0 <= i <= |creeps|
        invariant index == TowerTarget(priorities[..i])
        invariant index.None? ==> target == null
        invariant index.Some? ==> index.value < i && target == creeps[index.value] &&
                                  target.militaryPriority == priorities[index.value]
      {
        var creep := creeps[i];
        PrefixGrow(priorities, i);
        var p := creep.militaryPriority;
        assert p == priorities[i];
        if p.Some? && p.value != 0.0 && p.value > 0.0 && (target == null || target.militaryPriority.value < p.value) {
          target := creep;
          index := Some(i);
        }
        i := i + 1;
      }
      PrefixWhole(priorities);
      assert index == TowerTarget(priorities);
      assert priorities == Priorities();
    }
  }
}
