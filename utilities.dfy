/**
 * Small helpers the bot shares across modules: picking the best rated
 * option, visiting the tiles around a centre, a cost matrix that keeps
 * paths inside one room, and the table of reaction recipes.
 */
module Utilities {
  import opened Common
  import opened Cache
  import opened Hivemind

  // ---------------------------------------------------------------------------
  // getBestOption
  // ---------------------------------------------------------------------------

  /** An option with its rating; `item` is the rest of the object. */
  datatype Rated<T> = Rated(priority: real, weight: real, item: T)

  /** The replacement test of `getBestOption`: higher priority, or equal priority and higher weight. */
  predicate Beats<T>(a: Rated<T>, b: Rated<T>)
  {
    a.priority > b.priority || (a.priority == b.priority && a.weight > b.weight)
  }

  /** `getBestOption`: options with a negative priority are skipped; a later option replaces the best only when it beats it. */
  function BestOption<T>(options: seq<Rated<T>>): (r: Option<Rated<T>>)
    ensures r.Some? ==> r.value.priority >= 0.0
  {
    if options == [] then None
    else
      var best := BestOption(options[..|options| - 1]);
      var option := options[|options| - 1];
      if option.priority < 0.0 then best
      else if best.None? || Beats(option, best.value) then Some(option)
      else best
  }

  /**
   * The best option is nothing exactly when every priority is negative;
   * otherwise it is an option with a non-negative priority that no other
   * such option beats, and that beats every such option before it.
   */
  lemma {:induction false} BestIsFirstMaximal<T>(options: seq<Rated<T>>)
    ensures var r := BestOption(options);
            (r.None? <==> forall i :: 0 <= i < |options| ==> options[i].priority < 0.0) &&
            (r.Some? ==> exists k :: 0 <= k < |options| && options[k] == r.value &&
                           (forall i :: 0 <= i < |options| && options[i].priority >= 0.0 ==> !Beats(options[i], r.value)) &&
                           (forall i :: 0 <= i < k && options[i].priority >= 0.0 ==> Beats(r.value, options[i])))
  {
    if options != [] {
      var front := options[..|options| - 1];
      var option := options[|options| - 1];
      assert forall i :: 0 <= i < |front| ==> options[i] == front[i];
      BestIsFirstMaximal(front);
      var best := BestOption(front);
      if best.Some? {
        var k :| 0 <= k < |front| && front[k] == best.value &&
                 (forall i :: 0 <= i < |front| && front[i].priority >= 0.0 ==> !Beats(front[i], best.value)) &&
                 (forall i :: 0 <= i < k && front[i].priority >= 0.0 ==> Beats(best.value, front[i]));
        assert options[k] == best.value;
      }
    }
  }

  // ---------------------------------------------------------------------------
  // handleMapArea
  // ---------------------------------------------------------------------------

  /** A tile by its `x` and `y`. */
  type Tile = (int, int)

  predicate OnMap(t: Tile)
  {
    0 <= t.0 < 50 && 0 <= t.1 < 50
  }

  /** The tiles `(cx, cy + dy)` for `-range <= dy < dyEnd`, in order, leaving out those off the map. */
  function Column(cx: int, cy: int, range: int, dyEnd: int): seq<Tile>
    decreases dyEnd + range
  {
    if dyEnd <= -range then []
    else
      var dy := dyEnd - 1;
      Column(cx, cy, range, dy) + (if 0 <= cy + dy < 50 then [(cx, cy + dy)] else [])
  }

  /** The columns `cx + dx` for `-range <= dx < dxEnd`, in order, leaving out those off the map. */
  function Area(cx: int, cy: int, range: int, dxEnd: int): seq<Tile>
    decreases dxEnd + range
  {
    if dxEnd <= -range then []
    else
      var dx := dxEnd - 1;
      Area(cx, cy, range, dx) + (if 0 <= cx + dx < 50 then Column(cx + dx, cy, range, range + 1) else [])
  }

  /** Every tile within `range` of the centre on both axes, on the map, `x` first. */
  function Tiles(cx: int, cy: int, range: int): seq<Tile>
  {
    Area(cx, cy, range, range + 1)
  }

  /** A column holds exactly the tiles on the map in its rows. */
  lemma {:induction false} ColumnTiles(cx: int, cy: int, range: int, dyEnd: int)
    ensures forall t :: t in Column(cx, cy, range, dyEnd) <==> t.0 == cx && cy - range <= t.1 < cy + dyEnd && 0 <= t.1 < 50
    decreases dyEnd + range
  {
    if dyEnd > -range {
      ColumnTiles(cx, cy, range, dyEnd - 1);
    }
  }

  /** An area holds exactly the tiles on the map in its columns and within `range` rows of the centre. */
  lemma {:induction false} AreaTiles(cx: int, cy: int, range: int, dxEnd: int)
    ensures forall t :: t in Area(cx, cy, range, dxEnd) <==> cx - range <= t.0 < cx + dxEnd && cy - range <= t.1 <= cy + range && OnMap(t)
    decreases dxEnd + range
  {
    if dxEnd > -range {
      var dx := dxEnd - 1;
      AreaTiles(cx, cy, range, dx);
      ColumnTiles(cx + dx, cy, range, range + 1);
      var front := Area(cx, cy, range, dx);
      var column := if 0 <= cx + dx < 50 then Column(cx + dx, cy, range, range + 1) else [];
      assert Area(cx, cy, range, dxEnd) == front + column;
      forall t: Tile ensures t in front + column <==>
                       cx - range <= t.0 < cx + dxEnd && cy - range <= t.1 <= cy + range && OnMap(t) {
        assert t in front + column <==> t in front || t in column;
      }
    }
  }

  /** The walk visits exactly the tiles on the map within `range` of the centre on both axes. */
  lemma TilesInRange(cx: int, cy: int, range: int, t: Tile)
    ensures t in Tiles(cx, cy, range) <==>
              OnMap(t) && cx - range <= t.0 <= cx + range && cy - range <= t.1 <= cy + range
  {
    AreaTiles(cx, cy, range, range + 1);
  }

  /** The walk order: `x` first, then `y`. */
  predicate Before(s: Tile, t: Tile)
  {
    s.0 < t.0 || (s.0 == t.0 && s.1 < t.1)
  }

  predicate Increasing(r: seq<Tile>)
  {
    forall i, j :: 0 <= i < j < |r| ==> Before(r[i], r[j])
  }

  /** Two increasing runs, the first wholly before the second, make one. */
  lemma AppendIncreasing(a: seq<Tile>, b: seq<Tile>)
    requires Increasing(a) && Increasing(b)
    requires forall s, t :: s in a && t in b ==> Before(s, t)
    ensures Increasing(a + b)
  {
    var r := a + b;
    forall i, j | 0 <= i < j < |r| ensures Before(r[i], r[j]) {
      if j < |a| {
        assert r[i] == a[i] && r[j] == a[j];
      } else if i >= |a| {
        assert r[i] == b[i - |a|] && r[j] == b[j - |a|];
      } else {
        assert r[i] in a && r[j] in b;
      }
    }
  }

  lemma {:induction false} ColumnIncreasing(cx: int, cy: int, range: int, dyEnd: int)
    ensures Increasing(Column(cx, cy, range, dyEnd))
    decreases dyEnd + range
  {
    if dyEnd > -range {
      var dy := dyEnd - 1;
      ColumnIncreasing(cx, cy, range, dy);
      ColumnTiles(cx, cy, range, dy);
      AppendIncreasing(Column(cx, cy, range, dy), if 0 <= cy + dy < 50 then [(cx, cy + dy)] else []);
    }
  }

  /** The walk goes column by column, each from top to bottom, so it never comes back to a tile. */
  lemma {:induction false} AreaIncreasing(cx: int, cy: int, range: int, dxEnd: int)
    ensures Increasing(Area(cx, cy, range, dxEnd))
    decreases dxEnd + range
  {
    if dxEnd > -range {
      var dx := dxEnd - 1;
      AreaIncreasing(cx, cy, range, dx);
      ColumnIncreasing(cx + dx, cy, range, range + 1);
      var front := Area(cx, cy, range, dx);
      var column := if 0 <= cx + dx < 50 then Column(cx + dx, cy, range, range + 1) else [];
      forall s: Tile, t: Tile | s in front && t in column ensures Before(s, t) {
        AreaTiles(cx, cy, range, dx);
        ColumnTiles(cx + dx, cy, range, range + 1);
        assert s.0 < cx + dx && t.0 == cx + dx;
      }
      AppendIncreasing(front, column);
    }
  }

  /** The tiles the callback is called for: up to and including the first one it answers `false`. */
  function Visits(tiles: seq<Tile>, callback: (int, int) -> bool): seq<Tile>
  {
    if tiles == [] then []
    else if !callback(tiles[0].0, tiles[0].1) then [tiles[0]]
    else [tiles[0]] + Visits(tiles[1..], callback)
  }

  /** The callback accepts every tile of `tiles`. */
  predicate Accepted(tiles: seq<Tile>, callback: (int, int) -> bool)
  {
    forall i :: 0 <= i < |tiles| ==> callback(tiles[i].0, tiles[i].1)
  }

  lemma AcceptedSnoc(tiles: seq<Tile>, t: Tile, callback: (int, int) -> bool)
    requires Accepted(tiles, callback) && callback(t.0, t.1)
    ensures Accepted(tiles + [t], callback)
  {
    assert forall i :: 0 <= i < |tiles| ==> (tiles + [t])[i] == tiles[i];
  }

  /** Accepted tiles followed by a refused one end the walk there. */
  lemma {:induction false} VisitsStop(tiles: seq<Tile>, done: seq<Tile>, t: Tile, callback: (int, int) -> bool)
    requires done + [t] <= tiles && Accepted(done, callback) && !callback(t.0, t.1)
    ensures Visits(tiles, callback) == done + [t]
  {
    if done != [] {
      assert tiles[0] == done[0];
      assert done[1..] + [t] <= tiles[1..] by {
        assert tiles[1..][..|done[1..] + [t]|] == (done + [t])[1..];
      }
      assert Accepted(done[1..], callback) by {
        forall i | 0 <= i < |done[1..]| ensures callback(done[1..][i].0, done[1..][i].1) {
          assert done[1..][i] == done[i + 1];
        }
      }
      VisitsStop(tiles[1..], done[1..], t, callback);
      assert done == [done[0]] + done[1..];
    } else {
      assert tiles[0] == t;
    }
  }

  /** When the callback accepts every tile, every tile is visited. */
  lemma {:induction false} VisitsAll(tiles: seq<Tile>, callback: (int, int) -> bool)
    requires Accepted(tiles, callback)
    ensures Visits(tiles, callback) == tiles
  {
    if tiles != [] {
      assert Accepted(tiles[1..], callback) by {
        forall i | 0 <= i < |tiles[1..]| ensures callback(tiles[1..][i].0, tiles[1..][i].1) {
          assert tiles[1..][i] == tiles[i + 1];
        }
      }
      VisitsAll(tiles[1..], callback);
      assert tiles == [tiles[0]] + tiles[1..];
    }
  }

  /** The walk stops at the first tile the callback refuses: it is a prefix of the tiles, all accepted but the last. */
  lemma {:induction false} VisitsStopAtFirstRefusal(tiles: seq<Tile>, callback: (int, int) -> bool)
    ensures var r := Visits(tiles, callback);
            r <= tiles &&
            (r != [] ==> Accepted(r[..|r| - 1], callback)) &&
            (|r| < |tiles| ==> r != [] && !callback(r[|r| - 1].0, r[|r| - 1].1))
  {
    if tiles != [] && callback(tiles[0].0, tiles[0].1) {
      VisitsStopAtFirstRefusal(tiles[1..], callback);
      var rest := Visits(tiles[1..], callback);
      var r := [tiles[0]] + rest;
      if rest != [] {
        forall i | 0 <= i < |r| - 1 ensures callback(r[i].0, r[i].1) {
          if i > 0 {
            assert r[i] == rest[..|rest| - 1][i - 1];
          }
        }
      }
    }
  }

  /** Rows further down a column extend it. */
  lemma {:induction false} ColumnGrows(cx: int, cy: int, range: int, a: int, b: int)
    requires a <= b
    ensures Column(cx, cy, range, a) <= Column(cx, cy, range, b)
    decreases b - a
  {
    if a < b {
      ColumnGrows(cx, cy, range, a, b - 1);
    }
  }

  /** Further columns extend the area. */
  lemma {:induction false} AreaGrows(cx: int, cy: int, range: int, a: int, b: int)
    requires a <= b
    ensures Area(cx, cy, range, a) <= Area(cx, cy, range, b)
    decreases b - a
  {
    if a < b {
      AreaGrows(cx, cy, range, a, b - 1);
    }
  }

  lemma Associative<T>(a: seq<T>, b: seq<T>, c: seq<T>)
    ensures a + b + c == a + (b + c)
  {
  }

  /** A sequence is any prefix of it followed by the rest. */
  lemma PrefixRest<T>(p: seq<T>, s: seq<T>)
    requires p <= s
    ensures s == p + s[|p|..]
  {
  }

  /** Tiles the callback accepts are walked through. */
  lemma {:induction false} VisitsAfterAccepted(done: seq<Tile>, rest: seq<Tile>, callback: (int, int) -> bool)
    requires Accepted(done, callback)
    ensures Visits(done + rest, callback) == done + Visits(rest, callback)
  {
    if done != [] {
      assert Accepted(done[1..], callback) by {
        forall i | 0 <= i < |done[1..]| ensures callback(done[1..][i].0, done[1..][i].1) {
          assert done[1..][i] == done[i + 1];
        }
      }
      VisitsAfterAccepted(done[1..], rest, callback);
      assert (done + rest)[0] == done[0] && callback(done[0].0, done[0].1);
      assert (done + rest)[1..] == done[1..] + rest;
      assert done == [done[0]] + done[1..];
    } else {
      assert done + rest == rest;
    }
  }

  /** A walk that stops within a run of tiles ignores whatever follows them. */
  lemma {:induction false} VisitsStopWithin(part: seq<Tile>, rest: seq<Tile>, callback: (int, int) -> bool)
    requires !Accepted(part, callback)
    ensures Visits(part + rest, callback) == Visits(part, callback)
  {
    var i :| 0 <= i < |part| && !callback(part[i].0, part[i].1);
    var whole := part + rest;
    assert whole[0] == part[0];
    if callback(part[0].0, part[0].1) {
      assert part[1..][i - 1] == part[i];
      VisitsStopWithin(part[1..], rest, callback);
      assert whole[1..] == part[1..] + rest;
      assert Visits(whole, callback) == [part[0]] + Visits(whole[1..], callback);
    } else {
      assert Visits(whole, callback) == [part[0]];
    }
  }

  lemma AcceptedAppend(a: seq<Tile>, b: seq<Tile>, callback: (int, int) -> bool)
    requires Accepted(a, callback) && Accepted(b, callback)
    ensures Accepted(a + b, callback)
  {
    forall i | 0 <= i < |a + b| ensures callback((a + b)[i].0, (a + b)[i].1) {
      if i >= |a| {
        assert (a + b)[i] == b[i - |a|];
      } else {
        assert (a + b)[i] == a[i];
      }
    }
  }

  /** A walk through accepted columns goes on through the next column when it accepts all of it. */
  lemma NextColumn(cx: int, cy: int, range: int, dx: int, callback: (int, int) -> bool)
    requires -range <= dx && 0 <= cx + dx < 50
    requires Accepted(Area(cx, cy, range, dx), callback)
    requires Accepted(Column(cx + dx, cy, range, range + 1), callback)
    ensures Area(cx, cy, range, dx + 1) == Area(cx, cy, range, dx) + Visits(Column(cx + dx, cy, range, range + 1), callback)
    ensures Accepted(Area(cx, cy, range, dx + 1), callback)
  {
    var whole := Column(cx + dx, cy, range, range + 1);
    VisitsAll(whole, callback);
    AcceptedAppend(Area(cx, cy, range, dx), whole, callback);
  }

  /** A walk through accepted columns that stops within the next column ends there. */
  lemma StopInColumn(cx: int, cy: int, range: int, dx: int, callback: (int, int) -> bool)
    requires -range <= dx <= range && 0 <= cx + dx < 50
    requires Accepted(Area(cx, cy, range, dx), callback)
    requires !Accepted(Column(cx + dx, cy, range, range + 1), callback)
    ensures Visits(Tiles(cx, cy, range), callback) ==
            Area(cx, cy, range, dx) + Visits(Column(cx + dx, cy, range, range + 1), callback)
  {
    var done := Area(cx, cy, range, dx);
    var whole := Column(cx + dx, cy, range, range + 1);
    var tiles := Tiles(cx, cy, range);
    assert Area(cx, cy, range, dx + 1) == done + whole;
    AreaGrows(cx, cy, range, dx + 1, range + 1);
    var rest := tiles[|done + whole|..];
    PrefixRest(done + whole, tiles);
    Associative(done, whole, rest);
    VisitsAfterAccepted(done, whole + rest, callback);
    VisitsStopWithin(whole, rest, callback);
  }

  /**
   * The inner loop of `handleMapArea`: calls the callback down column `cx`,
   * skipping rows off the map, until it answers `false`. Returns the tiles
   * it was called for and whether it stopped.
   */
  method VisitColumn(cx: int, cy: int, range: int, callback: (int, int) -> bool) returns (visited: seq<Tile>, stopped: bool)
    ensures visited == Visits(Column(cx, cy, range, range + 1), callback)
    ensures stopped <==> !Accepted(Column(cx, cy, range, range + 1), callback)
  {
    visited := [];
    var dy := -range;
    while dy <= range
      invariant -range <= dy && (dy <= range + 1 || dy == -range)
      invariant visited == Column(cx, cy, range, dy) && Accepted(visited, callback)
      decreases range + 1 - dy
    {
      if cy + dy < 0 || cy + dy >= 50 {
        dy := dy + 1;
        continue;
      }
      if !callback(cx, cy + dy) {
        ColumnGrows(cx, cy, range, dy + 1, range + 1);
        VisitsStop(Column(cx, cy, range, range + 1), visited, (cx, cy + dy), callback);
        visited := visited + [(cx, cy + dy)];
        var whole := Column(cx, cy, range, range + 1);
        assert whole[|visited| - 1] == (cx, cy + dy);
        return visited, true;
      }
      AcceptedSnoc(visited, (cx, cy + dy), callback);
      visited := visited + [(cx, cy + dy)];
      dy := dy + 1;
    }
    VisitsAll(visited, callback);
    return visited, false;
  }

  /**
   * `handleMapArea`: calls the callback for the tiles around `(x, y)` within
   * `range` (1 when not given), column by column, skipping tiles off the
   * map, and stops after the first call that answers `false`. Returns the
   * tiles the callback was called for.
   */
  method HandleMapArea(x: int, y: int, callback: (int, int) -> bool, range: Option<int>) returns (visited: seq<Tile>)
    ensures visited == Visits(Tiles(x, y, if range.Some? then range.value else 1), callback)
  {
    var r := if range.Some? then range.value else 1;
    visited := [];
    var dx := -r;
    while dx <= r
      invariant -r <= dx && (dx <= r + 1 || dx == -r)
      invariant visited == Area(x, y, r, dx) && Accepted(visited, callback)
      decreases r + 1 - dx
    {
      if x + dx < 0 || x + dx >= 50 {
        dx := dx + 1;
        continue;
      }
      var column, stopped := VisitColumn(x + dx, y, r, callback);
      if stopped {
        StopInColumn(x, y, r, dx, callback);
        return visited + column;
      }
      NextColumn(x, y, r, dx, callback);
      visited := visited + column;
      dx := dx + 1;
    }
    if r < 0 {
      assert visited == [] && Tiles(x, y, r) == [];
    }
    assert visited == Tiles(x, y, r);
    VisitsAll(visited, callback);
  }

  // ---------------------------------------------------------------------------
  // generateSingleRoomCostMatrix
  // ---------------------------------------------------------------------------

  /** `TERRAIN_MASK_WALL`. */
  const TerrainMaskWall := 1

  /** The cost the single-room matrix gives to exit tiles that are not walls. */
  const ExitCost := 50

  predicate Border(x: int, y: int)
  {
    x == 0 || y == 0 || x == 49 || y == 49
  }

  /** The cost of tile `(x, y)` in the derived matrix, given its cost in the base one. */
  function SingleRoomCost(base: int, x: int, y: int, terrain: (int, int) -> int): int
  {
    if Border(x, y) && terrain(x, y) != TerrainMaskWall then ExitCost else base
  }

  /** A cost matrix stores tile `(x, y)` at `x * 50 + y`. */
  lemma IndexParts(x: int, y: int)
    requires 0 <= y < 50
    ensures (x * 50 + y) / 50 == x && (x * 50 + y) % 50 == y
  {
  }

  /**
   * `generateSingleRoomCostMatrix`: a copy of the matrix in which every
   * border tile that is not a wall costs 50; the given matrix is left as it
   * was. `terrain` is the room's `Room.Terrain`.
   */
  method GenerateSingleRoomCostMatrix(matrix: array<int>, terrain: (int, int) -> int) returns (result: array<int>)
    requires matrix.Length == 2500
    ensures fresh(result) && result.Length == 2500
    ensures forall i :: 0 <= i < 2500 ==> result[i] == SingleRoomCost(matrix[i], i / 50, i % 50, terrain)
  {
    result := new int[2500];
    var i := 0;
    while i < 2500
      invariant 0 <= i <= 2500
      invariant forall j :: 0 <= j < i ==> result[j] == matrix[j]
    {
      result[i] := matrix[i];
      i := i + 1;
    }
    var x := 0;
    while x < 50
      invariant 0 <= x <= 50
      invariant forall j :: 0 <= j < 2500 ==>
                  result[j] == if j < x * 50 then SingleRoomCost(matrix[j], j / 50, j % 50, terrain) else matrix[j]
    {
      var y := 0;
      while y < 50
        invariant 0 <= y <= 50
        invariant forall j :: 0 <= j < 2500 ==>
                    result[j] == if j < x * 50 + y then SingleRoomCost(matrix[j], j / 50, j % 50, terrain) else matrix[j]
      {
        IndexParts(x, y);
        if Border(x, y) && terrain(x, y) != TerrainMaskWall {
          result[x * 50 + y] := ExitCost;
        }
        y := y + 1;
      }
      x := x + 1;
    }
  }

  // ---------------------------------------------------------------------------
  // getReactionRecipes
  // ---------------------------------------------------------------------------

  /** One reaction: two reagents and what they make. */
  datatype Reaction = Reaction(first: string, second: string, result: string)

  /** `REACTIONS` read row by row, each row in its own order. */
  function Reactions(table: Dict<Dict<string>>): (r: seq<Reaction>)
  {
    if table == [] then []
    else
      var row := table[|table| - 1];
      Reactions(table[..|table| - 1]) +
        seq(|row.value|, j requires 0 <= j < |row.value| => Reaction(row.key, row.value[j].key, row.value[j].value))
  }

  /** The recipes for the reactions seen: a result already holding a recipe keeps it, any other gets this pair. */
  function Recipes(reactions: seq<Reaction>): Dict<(string, string)>
  {
    if reactions == [] then []
    else
      var recipes := Recipes(reactions[..|reactions| - 1]);
      var reaction := reactions[|reactions| - 1];
      if Lookup(recipes, reaction.result).Some? then recipes
      else Put(recipes, reaction.result, (reaction.first, reaction.second))
  }

  /** The recipe table names each result once. */
  lemma {:induction false} RecipesDistinct(reactions: seq<Reaction>)
    ensures DistinctKeys(Recipes(reactions))
  {
    if reactions != [] {
      var reaction := reactions[|reactions| - 1];
      RecipesDistinct(reactions[..|reactions| - 1]);
      PutDistinct(Recipes(reactions[..|reactions| - 1]), reaction.result, (reaction.first, reaction.second));
    }
  }

  /** The first reaction making `result`, if any. */
  predicate FirstMaking(reactions: seq<Reaction>, k: int, result: string)
  {
    0 <= k < |reactions| && reactions[k].result == result &&
    forall i :: 0 <= i < k ==> reactions[i].result != result
  }

  /** Some reaction makes `result`. */
  predicate Makes(reactions: seq<Reaction>, result: string)
  {
    exists i :: 0 <= i < |reactions| && reactions[i].result == result
  }

  /** A result has a recipe exactly when some reaction makes it. */
  lemma {:induction false} RecipesCoverResults(reactions: seq<Reaction>, result: string)
    ensures Lookup(Recipes(reactions), result).Some? <==> Makes(reactions, result)
  {
    if reactions != [] {
      var n := |reactions|;
      var front := reactions[..n - 1];
      var reaction := reactions[n - 1];
      RecipesCoverResults(front, result);
      var recipes := Recipes(front);
      if Lookup(recipes, reaction.result).None? {
        LookupPut(recipes, reaction.result, (reaction.first, reaction.second), result);
      }
      if Makes(front, result) {
        var i :| 0 <= i < |front| && front[i].result == result;
        assert reactions[i] == front[i];
      }
      if Makes(reactions, result) && reaction.result != result {
        var i :| 0 <= i < n && reactions[i].result == result;
        assert front[i] == reactions[i];
      }
    }
  }

  /** A result's recipe is the pair of reagents of the first reaction making it. */
  lemma {:induction false} RecipesAreFirst(reactions: seq<Reaction>, result: string)
    ensures Lookup(Recipes(reactions), result).Some? ==>
              exists k :: FirstMaking(reactions, k, result) &&
                          Lookup(Recipes(reactions), result).value == (reactions[k].first, reactions[k].second)
  {
    if reactions != [] {
      var n := |reactions|;
      var front := reactions[..n - 1];
      var reaction := reactions[n - 1];
      RecipesAreFirst(front, result);
      RecipesCoverResults(front, result);
      var recipes := Recipes(front);
      var before := Lookup(recipes, result);
      if before.None? && reaction.result == result {
        forall i | 0 <= i < n - 1 ensures reactions[i].result != result {
          assert front[i] == reactions[i];
        }
      }
      if Lookup(recipes, reaction.result).None? {
        LookupPut(recipes, reaction.result, (reaction.first, reaction.second), result);
      }
      if before.Some? {
        var k :| FirstMaking(front, k, result) && before.value == (front[k].first, front[k].second);
        assert forall i :: 0 <= i <= k ==> front[i] == reactions[i];
        assert FirstMaking(reactions, k, result);
      } else if reaction.result == result {
        assert FirstMaking(reactions, n - 1, result);
      }
    }
  }

  /** The generator `getReactionRecipes` hands the cache. */
  function RecipeGenerator(table: Dict<Dict<string>>): (gen: Option<CacheEntry<Dict<(string, string)>>> -> Dict<(string, string)>)
    ensures forall previous :: gen(previous) == Recipes(Reactions(table))
  {
    previous => Recipes(Reactions(table))
  }

  /** `getReactionRecipes`: the recipes, kept on the heap under `reverseReactions` for 100000 ticks. */
  method GetReactionRecipes(heap: Holder<Dict<(string, string)>>, table: Dict<Dict<string>>, load: Load, clock: Clock)
    returns (recipes: Dict<(string, string)>)
    modifies heap
    ensures heap.cache == Some(Refreshed(old(heap.cache), "reverseReactions", 100000.0, RecipeGenerator(table), load, clock))
    ensures recipes == heap.cache.value["reverseReactions"].data
    ensures Expired(Bins(old(heap.cache)), "reverseReactions", 100000.0, load, clock) ==> recipes == Recipes(Reactions(table))
    ensures !Expired(Bins(old(heap.cache)), "reverseReactions", 100000.0, load, clock) ==>
              recipes == old(heap.cache).value["reverseReactions"].data
  {
    recipes := InObject(heap, "reverseReactions", 100000.0, RecipeGenerator(table), load, clock);
  }
}
