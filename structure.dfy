/**
 * Structure helpers: whether a creep can stand on a structure, whether the
 * structure is operational, the bay an extension belongs to, a tower's power
 * at a range and the energy cost of a creep body.
 */
module Structures {
  import opened Common

  /** The game's tower constants. */
  const TowerOptimalRange: real := 5.0
  const TowerFalloffRange: real := 20.0
  const TowerFalloff: real := 0.75

  /**
   * `getPowerAtRange`: full power up to the optimal range, then falling
   * linearly to `1 - TowerFalloff` at the falloff range and flat beyond.
   */
  function PowerAtRange(range: real): (p: real)
    ensures range <= TowerOptimalRange ==> p == 1.0
    ensures range >= TowerFalloffRange ==> p == 1.0 - TowerFalloff
    ensures 1.0 - TowerFalloff <= p <= 1.0
  {
    var r := if range < TowerOptimalRange then TowerOptimalRange else range;
    var clamped := if r > TowerFalloffRange then TowerFalloffRange else r;
    1.0 - ((clamped - TowerOptimalRange) / (TowerFalloffRange - TowerOptimalRange)) * TowerFalloff
  }

  /** Tower power never grows with distance. */
  lemma PowerNonIncreasing(near: real, far: real)
    requires near <= far
    ensures PowerAtRange(far) <= PowerAtRange(near)
  {
  }

  /** The structure types no creep can stand on. */
  const ObstacleTypes: set<string> := {
    "spawn", "creep", "powerCreep", "source", "mineral", "deposit", "controller", "constructedWall",
    "extension", "link", "storage", "tower", "observer", "powerSpawn", "powerBank", "lab", "terminal",
    "nuker", "factory", "invaderCore"
  }

  /** What `isWalkable` looks at on a structure. */
  datatype Structure = Structure(id: string, structureType: string, my: bool, isPublic: bool)

  /** `isWalkable`: obstacles block; a rampart lets through its owner or anyone when public; anything else is walkable. */
  function IsWalkable(s: Structure): (r: bool)
    ensures s.structureType in ObstacleTypes ==> !r
    ensures s.structureType == "rampart" ==> (r <==> s.my || s.isPublic)
    ensures s.structureType !in ObstacleTypes && s.structureType != "rampart" ==> r
  {
    if s.structureType in ObstacleTypes then false
    else if s.structureType == "rampart" then s.my || s.isPublic
    else true
  }

  /** `isOperational`: a structure is inoperative only when the room's `inactiveStructures` flags its id. */
  function IsOperational(inactive: Option<map<string, bool>>, id: string): (r: bool)
    ensures !r <==> inactive.Some? && id in inactive.value && inactive.value[id]
  {
    if inactive.None? then true
    else if id !in inactive.value || !inactive.value[id] then true
    else false
  }

  /** The index of the first bay that contains the extension, if any. */
  function FirstBay(contains: seq<bool>): (r: Option<nat>)
    ensures r.Some? ==> r.value < |contains| && contains[r.value] &&
                        forall j :: 0 <= j < r.value ==> !contains[j]
    ensures r.None? ==> forall j :: 0 <= j < |contains| ==> !contains[j]
  {
    if contains == [] then None
    else if contains[0] then Some(0)
    else
      var rest := FirstBay(contains[1..]);
      if rest.Some? then Some(rest.value + 1) else None
  }

  /** An extension (or spawn) with its bay memo. */
  class Extension {
    var bayChecked: bool
    var bay: Option<nat>

    constructor()
      ensures !bayChecked && bay.None?
    {
      bayChecked := false;
      bay := None;
    }

    /**
     * `isBayExtension`: on the first call scans the room's bays in order and
     * remembers the first one containing this extension; later calls answer
     * from the memo. `contains[i]` says whether bay `i` has this extension.
     */
    method IsBayExtension(contains: seq<bool>) returns (r: bool)
      modifies this
      ensures bayChecked
      ensures !old(bayChecked) ==> bay == FirstBay(contains)
      ensures old(bayChecked) ==> bay == old(bay)
      ensures r <==> bay.Some?
    {
      if !bayChecked {
        bayChecked := true;
        bay := None;
        var i := 0;
        while i < |contains|
          invariant 0 <= i <= |contains|
          invariant forall j :: 0 <= j < i ==> !contains[j]
          invariant bay.None?
        {
          if contains[i] {
            bay := Some(i);
            break;
          }
          i := i + 1;
        }
      }
      r := bay.Some?;
    }
  }

  /** `BODYPART_COST`: the energy price of each body part type; other names have none. */
  function PartCost(part: string): Option<int>
  {
    if part == "move" then Some(50)
    else if part == "work" then Some(100)
    else if part == "attack" then Some(80)
    else if part == "carry" then Some(50)
    else if part == "heal" then Some(250)
    else if part == "ranged_attack" then Some(150)
    else if part == "tough" then Some(10)
    else if part == "claim" then Some(600)
    else None
  }

  /**
   * The cost of a body given as part counts: the sum of price times count;
   * `None` is the `NaN` an unknown part name produces.
   */
  function BodyCost(body: Dict<int>): Option<int>
  {
    if body == [] then Some(0)
    else
      var front := BodyCost(body[..|body| - 1]);
      var last := body[|body| - 1];
      var price := PartCost(last.key);
      if front.None? || price.None? then None else Some(front.value + price.value * last.value)
  }

  /** The cost of two lists of part counts together is the sum of their costs. */
  lemma {:induction false} BodyCostAppend(a: Dict<int>, b: Dict<int>)
    ensures BodyCost(a + b) == (if BodyCost(a).None? || BodyCost(b).None? then None
                                 else Some(BodyCost(a).value + BodyCost(b).value))
    decreases |b|
  {
    if b != [] {
      var front := b[..|b| - 1];
      assert (a + b)[..|a + b| - 1] == a + front;
      BodyCostAppend(a, front);
    } else {
      assert a + b == a;
    }
  }

  /** A body of known parts with non-negative counts has a non-negative cost. */
  lemma {:induction false} BodyCostNonNegative(body: Dict<int>)
    requires forall i :: 0 <= i < |body| ==> PartCost(body[i].key).Some? && body[i].value >= 0
    ensures BodyCost(body).Some? && BodyCost(body).value >= 0
  {
    if body != [] {
      BodyCostNonNegative(body[..|body| - 1]);
    }
  }

  /** `calculateCreepBodyCost`: adds up price times count over the body's part types. */
  method CalculateCreepBodyCost(body: Dict<int>) returns (cost: Option<int>)
    ensures cost == BodyCost(body)
  {
    cost := Some(0);
    var i := 0;
    while i < |body|
      invariant 0 <= i <= |body|
      invariant cost == BodyCost(body[..i])
    {
      var price := PartCost(body[i].key);
      PrefixGrow(body, i);
      if cost.Some? && price.Some? {
        cost := Some(cost.value + price.value * body[i].value);
      } else {
        cost := None;
      }
      i := i + 1;
    }
    PrefixWhole(body);
  }
}
