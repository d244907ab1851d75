/**
 * Room defense assessments: whether the planned ramparts are all built and
 * strong enough, and how dangerous the hostile creeps in the room are.
 */
module RoomDefense {
  import opened Common

  /** A body part of a hostile creep, with the mineral compound boosting it, if any. */
  datatype BodyPart = BodyPart(partType: string, boost: Option<string>)

  /** The part types that count towards enemy strength. */
  predicate Offensive(p: BodyPart)
  {
    p.partType == "attack" || p.partType == "heal" || p.partType == "claim"
  }

  /** What one part adds: one to the count and its boost's name length to the boosts, if it is offensive. */
  datatype Tally = Tally(count: nat, boosts: nat)

  function Plus(a: Tally, b: Tally): Tally
  {
    Tally(a.count + b.count, a.boosts + b.boosts)
  }

  function PartTally(p: BodyPart): Tally
  {
    if !Offensive(p) then Tally(0, 0)
    else if Named(p.boost) then Tally(1, |p.boost.value|)
    else Tally(1, 0)
  }

  function BodyTally(body: seq<BodyPart>): Tally
  {
    if body == [] then Tally(0, 0) else Plus(BodyTally(body[..|body| - 1]), PartTally(body[|body| - 1]))
  }

  function CreepsTally(creeps: seq<seq<BodyPart>>): Tally
  {
    if creeps == [] then Tally(0, 0) else Plus(CreepsTally(creeps[..|creeps| - 1]), BodyTally(creeps[|creeps| - 1]))
  }

  /** The tally over every group of hostile creeps (`room.enemyCreeps` is grouped by owner). */
  function GroupsTally(groups: seq<seq<seq<BodyPart>>>): Tally
  {
    if groups == [] then Tally(0, 0) else Plus(GroupsTally(groups[..|groups| - 1]), CreepsTally(groups[|groups| - 1]))
  }

  /** Some part of the body is offensive. */
  predicate BodyArmed(body: seq<BodyPart>)
  {
    exists i :: 0 <= i < |body| && Offensive(body[i])
  }

  /** Some creep has an offensive part. */
  predicate CreepsArmed(creeps: seq<seq<BodyPart>>)
  {
    exists c :: 0 <= c < |creeps| && BodyArmed(creeps[c])
  }

  /** Some creep in some group has an offensive part. */
  predicate Armed(groups: seq<seq<seq<BodyPart>>>)
  {
    exists g :: 0 <= g < |groups| && CreepsArmed(groups[g])
  }

  /** A body counts no offensive part exactly when it has none. */
  lemma {:induction false} BodyCountZero(body: seq<BodyPart>)
    ensures BodyTally(body).count == 0 <==> !BodyArmed(body)
  {
    if body != [] {
      var front := body[..|body| - 1];
      BodyCountZero(front);
      if BodyArmed(body) {
        var i :| 0 <= i < |body| && Offensive(body[i]);
        if i < |front| {
          assert front[i] == body[i];
        }
      }
      if BodyArmed(front) {
        var i :| 0 <= i < |front| && Offensive(front[i]);
        assert front[i] == body[i];
      }
    }
  }

  /** A list of creeps counts no offensive part exactly when none of them has one. */
  lemma {:induction false} CreepsCountZero(creeps: seq<seq<BodyPart>>)
    ensures CreepsTally(creeps).count == 0 <==> !CreepsArmed(creeps)
  {
    if creeps != [] {
      var front := creeps[..|creeps| - 1];
      CreepsCountZero(front);
      BodyCountZero(creeps[|creeps| - 1]);
      if CreepsArmed(creeps) {
        var c :| 0 <= c < |creeps| && BodyArmed(creeps[c]);
        if c < |front| {
          assert front[c] == creeps[c];
        }
      }
      if CreepsArmed(front) {
        var c :| 0 <= c < |front| && BodyArmed(front[c]);
        assert front[c] == creeps[c];
      }
    }
  }

  /** The count of offensive parts is zero exactly when no hostile creep has one. */
  lemma {:induction false} GroupsCountZero(groups: seq<seq<seq<BodyPart>>>)
    ensures GroupsTally(groups).count == 0 <==> !Armed(groups)
  {
    if groups != [] {
      var front := groups[..|groups| - 1];
      GroupsCountZero(front);
      CreepsCountZero(groups[|groups| - 1]);
      if Armed(groups) {
        var g :| 0 <= g < |groups| && CreepsArmed(groups[g]);
        if g < |front| {
          assert front[g] == groups[g];
        }
      }
      if Armed(front) {
        var g :| 0 <= g < |front| && CreepsArmed(front[g]);
        assert front[g] == groups[g];
      }
    }
  }

  /** 0 when unarmed, 1 while boosts plus offensive parts stay under 30, else 2. */
  function Strength(t: Tally): (r: int)
    ensures 0 <= r <= 2
    ensures r == 0 <==> t.count == 0
    ensures r == 1 <==> t.count > 0 && t.boosts + t.count < 30
  {
    if t.count == 0 then 0
    else if t.boosts + t.count < 30 then 1
    else 2
  }

  /** Enemy strength is 0 exactly when no hostile creep has an attack, heal or claim part. */
  lemma StrengthZeroIffUnarmed(groups: seq<seq<seq<BodyPart>>>)
    ensures Strength(GroupsTally(groups)) == 0 <==> !Armed(groups)
  {
    GroupsCountZero(groups);
  }

  /** One step of the scan: an offensive part adds one, and its boost's name length when boosted. */
  method CountPart(t: Tally, part: BodyPart) returns (u: Tally)
    ensures u == Plus(t, PartTally(part))
  {
    u := t;
    if Offensive(part) {
      u := u.(count := u.count + 1);
      if Named(part.boost) {
        u := u.(boosts := u.boosts + |part.boost.value|);
      }
    }
  }

  method TallyBody(body: seq<BodyPart>) returns (t: Tally)
    ensures t == BodyTally(body)
  {
    t := Tally(0, 0);
    var i := 0;
    while i < |body|
      invariant 0 <= i <= |body|
      invariant t == BodyTally(body[..i])
    {
      PrefixGrow(body, i);
      t := CountPart(t, body[i]);
      i := i + 1;
    }
    PrefixWhole(body);
  }

  method TallyCreeps(creeps: seq<seq<BodyPart>>) returns (t: Tally)
    ensures t == CreepsTally(creeps)
  {
    t := Tally(0, 0);
    var c := 0;
    while c < |creeps|
      invariant 0 <= c <= |creeps|
      invariant t == CreepsTally(creeps[..c])
    {
      var body := TallyBody(creeps[c]);
      PrefixGrow(creeps, c);
      t := Plus(t, body);
      c := c + 1;
    }
    PrefixWhole(creeps);
  }

  /** `getEnemyStrength`: counts offensive parts and boosts over every hostile creep and classifies the total. */
  method GetEnemyStrength(groups: seq<seq<seq<BodyPart>>>) returns (r: int)
    ensures r == Strength(GroupsTally(groups))
    ensures 0 <= r <= 2
  {
    var t := Tally(0, 0);
    var g := 0;
    while g < |groups|
      invariant 0 <= g <= |groups|
      invariant t == GroupsTally(groups[..g])
    {
      var creeps := TallyCreeps(groups[g]);
      PrefixGrow(groups, g);
      t := Plus(t, creeps);
      g := g + 1;
    }
    PrefixWhole(groups);
    if t.count == 0 {
      return 0;
    }
    if t.boosts + t.count < 30 {
      return 1;
    }
    return 2;
  }

  /** A structure found on a tile. */
  datatype Found = Found(structureType: string, hits: int)

  /** The hits every planned rampart needs at a controller level. */
  function RequiredHits(level: int): int
  {
    25000 * level * level
  }

  /** The tile holds a rampart with at least `required` hits. */
  predicate Guarded(found: seq<Found>, required: int)
  {
    exists s :: s in found && s.structureType == "rampart" && s.hits >= required
  }

  /**
   * `isWallIntact`: true without a room planner; otherwise true exactly when
   * every planned rampart tile holds a rampart with at least `25000·level²`
   * hits. `structuresAt` is the tile lookup.
   */
  method IsWallIntact<P>(planned: Option<seq<P>>, level: int, structuresAt: P -> seq<Found>) returns (r: bool)
    ensures planned.None? ==> r
    ensures planned.Some? ==>
              (r <==> forall i :: 0 <= i < |planned.value| ==> Guarded(structuresAt(planned.value[i]), RequiredHits(level)))
  {
    if planned.None? {
      return true;
    }
    var positions := planned.value;
    var required := 25000 * level * level;
    var i := 0;
    while i < |positions|
      invariant 0 <= i <= |positions|
      invariant forall j :: 0 <= j < i ==> Guarded(structuresAt(positions[j]), required)
    {
      var found := structuresAt(positions[i]);
      var strong := RampartsAtLeast(found, required);
      if strong == 0 {
        return false;
      }
      i := i + 1;
    }
    return true;
  }

  /** How many of the structures are ramparts with at least `required` hits. */
  method RampartsAtLeast(found: seq<Found>, required: int) returns (n: nat)
    ensures n == 0 <==> !Guarded(found, required)
  {
    n := 0;
    var k := 0;
    while k < |found|
      invariant 0 <= k <= |found|
      invariant n == 0 <==> forall j :: 0 <= j < k ==> !(found[j].structureType == "rampart" && found[j].hits >= required)
    {
      if found[k].structureType == "rampart" && found[k].hits >= required {
        n := n + 1;
      }
      k := k + 1;
    }
  }
}
