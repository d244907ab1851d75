/**
 * `Room.calculateRoomPath`: an A*-style search over rooms from this room to
 * a target room. Rooms are joined by their exits; the open list is scanned
 * in insertion order for the entry with the least `range + dist`; each
 * expansion adds the exits not seen before, with a cost that builds up over
 * the exits of that one expansion. The result is the list of rooms to walk
 * through, without the start room, or nothing when the open list runs dry.
 */
module RoomPathfinding {
  import opened Common

  /** An open-list entry: cost so far, linear distance to the target, the room the search started in, and the rooms walked. */
  datatype Info = Info(range: real, dist: int, origin: string, path: seq<string>)

  /**
   * What the search consults about rooms: whether segmented memory is ready
   * (then room intel supplies the exits and the danger, otherwise the game
   * map supplies the exits), and the game's linear room distance.
   */
  datatype World = World(
    ready: bool,
    intelExits: string -> seq<string>,
    mapExits: string -> seq<string>,
    distance: (string, string) -> nat,
    owned: string -> bool,
    claimed: string -> bool,
    keeperLair: string -> bool)

  /** `options`: `maxPathLength` (undefined or a number, used only when truthy) and `allowDanger`. */
  datatype Options = Options(maxPathLength: Option<int>, allowDanger: bool)

  /** Exits farther than this from the target are never opened. */
  const MaxDistance: nat := 20

  /** The rooms next to `room`: from intel when memory is ready, from the map otherwise. */
  function Exits(w: World, room: string): seq<string>
  {
    if w.ready then w.intelExits(room) else w.mapExits(room)
  }

  predicate HasLimit(opts: Options)
  {
    opts.maxPathLength.Some? && opts.maxPathLength.value != 0
  }

  /** A room the search may enter: not owned by someone else, unless danger is allowed or intel is not available. */
  predicate Permitted(w: World, opts: Options, room: string)
  {
    !(w.ready && w.owned(room) && !opts.allowDanger)
  }

  /** Every room of the path is an exit of the room before it, the first one an exit of `start`. */
  predicate Chain(w: World, start: string, path: seq<string>)
  {
    (path != [] ==> path[0] in Exits(w, start))
    && forall k :: 0 < k < |path| ==> path[k] in Exits(w, path[k - 1])
  }

  /**
   * A path the search may produce for the room `key`: it leads from `start`
   * along exits to `key` (it is empty exactly for `start` itself), never
   * comes back to `start`, stays within 20 rooms of the target, avoids
   * forbidden rooms and respects the path length limit.
   */
  predicate GoodPath(w: World, opts: Options, start: string, target: string, key: string, path: seq<string>)
  {
    (path == [] ==> key == start)
    && (path != [] ==> path[|path| - 1] == key)
    && Chain(w, start, path)
    && (forall k :: 0 <= k < |path| ==> path[k] != start)
    && (forall k :: 0 <= k < |path| ==> w.distance(path[k], target) <= MaxDistance)
    && (forall k :: 0 <= k < |path| ==> Permitted(w, opts, path[k]))
    && (HasLimit(opts) && path != [] ==> |path| <= opts.maxPathLength.value)
  }

  predicate AllGood(w: World, opts: Options, start: string, target: string, open: Dict<Info>)
  {
    forall k :: 0 <= k < |open| ==> GoodPath(w, opts, start, target, open[k].key, open[k].value.path)
  }

  // ---------------------------------------------------------------------------
  // Choosing the next room.
  // ---------------------------------------------------------------------------

  function Score(info: Info): real
  {
    info.range + info.dist as real
  }

  /**
   * The scan for the next room from index `k` on, `best` the index chosen
   * so far: an entry replaces it when nothing is chosen yet, when the
   * chosen score is 0 (`!minDist`), or when its score is lower.
   */
  function Select(open: Dict<Info>, k: nat, best: Option<nat>): (r: Option<nat>)
    requires k <= |open| && (best.Some? ==> best.value < k)
    ensures r.Some? ==> r.value < |open|
    ensures best.Some? || k < |open| ==> r.Some?
    decreases |open| - k
  {
    if k == |open| then best
    else
      var take := best.None? || Score(open[best.value].value) == 0.0 || Score(open[k].value) < Score(open[best.value].value);
      Select(open, k + 1, if take then Some(k) else best)
  }

  /**
   * When no score is 0, the scan picks an entry with the least score, the
   * first one among equals.
   */
  lemma {:induction false} SelectFirstMinimum(open: Dict<Info>, k: nat, best: Option<nat>)
    requires k <= |open| && (best.Some? ==> best.value < k) && (best.Some? || k < |open|)
    requires forall j :: 0 <= j < |open| ==> Score(open[j].value) > 0.0
    requires best.Some? ==> forall j :: 0 <= j < k ==> Score(open[best.value].value) <= Score(open[j].value)
    requires best.Some? ==> forall j :: 0 <= j < best.value ==> Score(open[best.value].value) < Score(open[j].value)
    requires best.None? ==> k == 0
    ensures var r := Select(open, k, best);
            r.Some? && (forall j :: 0 <= j < |open| ==> Score(open[r.value].value) <= Score(open[j].value))
            && (forall j :: 0 <= j < r.value ==> Score(open[r.value].value) < Score(open[j].value))
    decreases |open| - k
  {
    if k < |open| {
      var take := best.None? || Score(open[best.value].value) == 0.0 || Score(open[k].value) < Score(open[best.value].value);
      SelectFirstMinimum(open, k + 1, if take then Some(k) else best);
    }
  }

  /** The `_.each(openList, ...)` scan: the index of the next room, with `minDist` and `nextRoom` updated in turn. */
  method NextRoom(open: Dict<Info>) returns (next: Option<nat>)
    ensures next == Select(open, 0, None)
    ensures open != [] ==> next.Some? && next.value < |open|
  {
    var minDist: Option<real> := None;
    next := None;
    var k := 0;
    while k < |open|
      invariant 0 <= k <= |open| && (next.Some? ==> next.value < k)
      invariant next.None? <==> minDist.None?
      invariant next.Some? ==> minDist == Some(Score(open[next.value].value))
      invariant Select(open, k, next) == Select(open, 0, None)
    {
      var score := open[k].value.range + open[k].value.dist as real;
      if minDist.None? || minDist.value == 0.0 || score < minDist.value {
        minDist := Some(score);
        next := Some(k);
      }
      k := k + 1;
    }
  }

  // ---------------------------------------------------------------------------
  // Expanding a room.
  // ---------------------------------------------------------------------------

  /** The cost after passing an exit: ×5 into an owned room, ×1.5 into a claimed one, and ×2 more with a keeper lair. */
  function Charged(w: World, cost: real, exit: string): real
  {
    if !w.ready then cost
    else
      var c := if w.owned(exit) then cost * 5.0 else if w.claimed(exit) then cost * 1.5 else cost;
      if w.keeperLair(exit) then c * 2.0 else c
  }

  /**
   * The loop over the exits of the room `info` leads to, from exit `k` on,
   * with the cost so far: exits already open or closed are skipped, so are
   * forbidden owned rooms; every other exit raises the cost, and is opened
   * with the room's cost plus the raised cost unless it lies more than 20
   * rooms from the target.
   */
  function ExpandFrom(w: World, opts: Options, target: string, open: Dict<Info>, closed: set<string>,
                      info: Info, exits: seq<string>, k: nat, cost: real): Dict<Info>
    requires k <= |exits|
    decreases |exits| - k
  {
    if k == |exits| then open
    else
      var exit := exits[k];
      if exit in KeySet(open) || exit in closed || !Permitted(w, opts, exit) then
        ExpandFrom(w, opts, target, open, closed, info, exits, k + 1, cost)
      else
        var charged := Charged(w, cost, exit);
        var distance := w.distance(exit, target);
        if distance > MaxDistance then
          ExpandFrom(w, opts, target, open, closed, info, exits, k + 1, charged)
        else
          var entry := Info(info.range + charged, distance, info.origin, info.path + [exit]);
          ExpandFrom(w, opts, target, Put(open, exit, entry), closed, info, exits, k + 1, charged)
  }

  /**
   * Expanding never reopens a room: the open list keeps distinct keys, no
   * closed room is opened, and the rooms added are exits.
   */
  lemma {:induction false} ExpandFromKeys(w: World, opts: Options, target: string, open: Dict<Info>, closed: set<string>,
                                          info: Info, exits: seq<string>, k: nat, cost: real)
    requires k <= |exits| && DistinctKeys(open) && KeySet(open) !! closed
    ensures var r := ExpandFrom(w, opts, target, open, closed, info, exits, k, cost);
            DistinctKeys(r) && KeySet(r) !! closed
            && forall room :: room in KeySet(r) ==> room in KeySet(open) || room in exits
    decreases |exits| - k
  {
    if k < |exits| {
      var exit := exits[k];
      if exit in KeySet(open) || exit in closed || !Permitted(w, opts, exit) {
        ExpandFromKeys(w, opts, target, open, closed, info, exits, k + 1, cost);
      } else {
        var charged := Charged(w, cost, exit);
        var distance := w.distance(exit, target);
        if distance > MaxDistance {
          ExpandFromKeys(w, opts, target, open, closed, info, exits, k + 1, charged);
        } else {
          var entry := Info(info.range + charged, distance, info.origin, info.path + [exit]);
          PutKeys(open, exit, entry);
          PutDistinct(open, exit, entry);
          ExpandFromKeys(w, opts, target, Put(open, exit, entry), closed, info, exits, k + 1, charged);
        }
      }
    }
  }

  /** Passing an exit never lowers the cost. */
  lemma ChargedGrows(w: World, cost: real, exit: string)
    requires cost >= 1.0
    ensures Charged(w, cost, exit) >= cost
  {
  }

  /** Every entry of `r` not already in `open` costs at least `floor`. */
  ghost predicate OpenedAbove(r: Dict<Info>, open: Dict<Info>, floor: real)
  {
    forall j :: 0 <= j < |r| ==> r[j] in open || r[j].value.range >= floor
  }

  /**
   * Every room an expansion opens costs at least one more than the room
   * expanded: the cost starts at 1 and only grows over the exits.
   */
  lemma {:induction false} ExpandFromRanges(w: World, opts: Options, target: string, open: Dict<Info>, closed: set<string>,
                                            info: Info, exits: seq<string>, k: nat, cost: real)
    requires k <= |exits| && cost >= 1.0
    ensures OpenedAbove(ExpandFrom(w, opts, target, open, closed, info, exits, k, cost), open, info.range + 1.0)
    decreases |exits| - k
  {
    if k < |exits| {
      var exit := exits[k];
      if exit in KeySet(open) || exit in closed || !Permitted(w, opts, exit) {
        ExpandFromRanges(w, opts, target, open, closed, info, exits, k + 1, cost);
        assert ExpandFrom(w, opts, target, open, closed, info, exits, k, cost)
            == ExpandFrom(w, opts, target, open, closed, info, exits, k + 1, cost);
      } else {
        var charged := Charged(w, cost, exit);
        ChargedGrows(w, cost, exit);
        var distance := w.distance(exit, target);
        if distance > MaxDistance {
          ExpandFromRanges(w, opts, target, open, closed, info, exits, k + 1, charged);
          assert ExpandFrom(w, opts, target, open, closed, info, exits, k, cost)
              == ExpandFrom(w, opts, target, open, closed, info, exits, k + 1, charged);
        } else {
          var entry := Info(info.range + charged, distance, info.origin, info.path + [exit]);
          var grown := Put(open, exit, entry);
          ExpandFromRanges(w, opts, target, grown, closed, info, exits, k + 1, charged);
          var r := ExpandFrom(w, opts, target, grown, closed, info, exits, k + 1, charged);
          assert ExpandFrom(w, opts, target, open, closed, info, exits, k, cost) == r;
          assert entry.range >= info.range + 1.0;
          forall j | 0 <= j < |r| && r[j] in grown ensures r[j] in open || r[j].value.range >= info.range + 1.0 {
            var i :| 0 <= i < |grown| && grown[i] == r[j];
            PutAt(open, exit, entry, i);
            if grown[i] != Entry(exit, entry) {
              assert open[i] in open;
            }
          }
        }
      }
    }
  }

  /**
   * Every room opened by an expansion of `key` gets a good path: the path of
   * `key` followed by the exit.
   */
  lemma {:induction false} ExpandFromGood(w: World, opts: Options, start: string, target: string, open: Dict<Info>,
                                          closed: set<string>, key: string, info: Info, k: nat, cost: real)
    requires k <= |Exits(w, key)| && start in closed && AllGood(w, opts, start, target, open)
    requires GoodPath(w, opts, start, target, key, info.path)
    requires !(HasLimit(opts) && |info.path| >= opts.maxPathLength.value)
    ensures AllGood(w, opts, start, target, ExpandFrom(w, opts, target, open, closed, info, Exits(w, key), k, cost))
    decreases |Exits(w, key)| - k
  {
    var exits := Exits(w, key);
    if k < |exits| {
      var exit := exits[k];
      if exit in KeySet(open) || exit in closed || !Permitted(w, opts, exit) {
        ExpandFromGood(w, opts, start, target, open, closed, key, info, k + 1, cost);
      } else {
        var charged := Charged(w, cost, exit);
        var distance := w.distance(exit, target);
        if distance > MaxDistance {
          ExpandFromGood(w, opts, start, target, open, closed, key, info, k + 1, charged);
        } else {
          var entry := Info(info.range + charged, distance, info.origin, info.path + [exit]);
          ExtendGood(w, opts, start, target, key, info.path, exit);
          PutGood(w, opts, start, target, open, exit, entry);
          ExpandFromGood(w, opts, start, target, Put(open, exit, entry), closed, key, info, k + 1, charged);
        }
      }
    }
  }

  /** A good path to `key`, extended by an exit of `key` that is allowed, near enough and not the start, is good. */
  lemma ExtendGood(w: World, opts: Options, start: string, target: string, key: string, path: seq<string>, exit: string)
    requires GoodPath(w, opts, start, target, key, path)
    requires exit in Exits(w, key) && exit != start && w.distance(exit, target) <= MaxDistance && Permitted(w, opts, exit)
    requires !(HasLimit(opts) && |path| >= opts.maxPathLength.value)
    ensures GoodPath(w, opts, start, target, exit, path + [exit])
  {
    var p := path + [exit];
    forall k | 0 < k < |p| ensures p[k] in Exits(w, p[k - 1]) {
      if k < |path| {
        assert p[k] == path[k] && p[k - 1] == path[k - 1];
      } else {
        assert p[k - 1] == key;
      }
    }
  }

  /** Storing an entry with a good path keeps every entry good. */
  lemma PutGood(w: World, opts: Options, start: string, target: string, open: Dict<Info>, key: string, info: Info)
    requires AllGood(w, opts, start, target, open) && GoodPath(w, opts, start, target, key, info.path)
    ensures AllGood(w, opts, start, target, Put(open, key, info))
  {
    var r := Put(open, key, info);
    forall j | 0 <= j < |r| ensures GoodPath(w, opts, start, target, r[j].key, r[j].value.path) {
      PutAt(open, key, info, j);
    }
  }

  /** Each entry after `Put` is the new one under its key, or an entry that was there. */
  lemma {:induction false} PutAt<V>(d: Dict<V>, k: string, v: V, j: nat)
    requires j < |Put(d, k, v)|
    ensures Put(d, k, v)[j] == Entry(k, v) || (j < |d| && Put(d, k, v)[j] == d[j])
  {
    if d != [] && d[0].key != k && j > 0 {
      PutAt(d[1..], k, v, j - 1);
    }
  }

  /** Every entry after `Remove` was an entry before. */
  lemma {:induction false} RemoveFrom<V>(d: Dict<V>, k: string, j: nat)
    requires j < |Remove(d, k)|
    ensures exists i :: 0 <= i < |d| && d[i] == Remove(d, k)[j]
  {
    if d[0].key == k {
      RemoveFrom(d[1..], k, j);
      var i :| 0 <= i < |d[1..]| && d[1..][i] == Remove(d, k)[j];
      assert d[i + 1] == Remove(d, k)[j];
    } else if j > 0 {
      RemoveFrom(d[1..], k, j - 1);
      var i :| 0 <= i < |d[1..]| && d[1..][i] == Remove(d, k)[j];
      assert d[i + 1] == Remove(d, k)[j];
    } else {
      assert d[0] == Remove(d, k)[j];
    }
  }

  /** Removing a key keeps the keys distinct. */
  lemma {:induction false} RemoveDistinct<V>(d: Dict<V>, k: string)
    requires DistinctKeys(d)
    ensures DistinctKeys(Remove(d, k))
  {
    if d != [] {
      RemoveDistinct(d[1..], k);
      if d[0].key != k {
        var r := Remove(d, k);
        assert r[1..] == Remove(d[1..], k);
        forall j | 1 <= j < |r| ensures r[j].key != r[0].key {
          assert r[j].key in KeySet(Remove(d[1..], k));
          KeySetCons(d);
        }
      }
    }
  }

  /** The `for (const exit of exits)` loop of one expansion, `cost` starting at 1. */
  method Expand(w: World, opts: Options, target: string, open: Dict<Info>, closed: set<string>, info: Info,
                exits: seq<string>) returns (r: Dict<Info>)
    ensures r == ExpandFrom(w, opts, target, open, closed, info, exits, 0, 1.0)
  {
    r := open;
    var cost := 1.0;
    var k := 0;
    while k < |exits|
      invariant 0 <= k <= |exits|
      invariant ExpandFrom(w, opts, target, r, closed, info, exits, k, cost) == ExpandFrom(w, opts, target, open, closed, info, exits, 0, 1.0)
    {
      var exit := exits[k];
      k := k + 1;
      if Lookup(r, exit).Some? || exit in closed {
        continue;
      }
      if w.ready {
        if w.owned(exit) {
          if !opts.allowDanger {
            continue;
          }
          cost := cost * 5.0;
        } else if w.claimed(exit) {
          cost := cost * 1.5;
        }
        if w.keeperLair(exit) {
          // Keeper rooms stay passable: their keepers can usually be avoided.
          cost := cost * 2.0;
        }
      }
      var distance := w.distance(exit, target);
      if distance > MaxDistance {
        continue;
      }
      r := Put(r, exit, Info(info.range + cost, distance, info.origin, info.path + [exit]));
    }
  }

  // ---------------------------------------------------------------------------
  // The search.
  // ---------------------------------------------------------------------------

  /**
   * `calculateRoomPath(targetRoom, options)` from the room `start`. The
   * game's rooms form a finite set `rooms` closed under exits, which bounds
   * the search. A path it returns leads from `start` along exits to the
   * target without coming back to `start`, through rooms within 20 of the
   * target, avoiding owned rooms unless danger is allowed, and no longer
   * than `maxPathLength`; from a (named) room to itself it is empty.
   */
  method CalculateRoomPath(start: string, target: string, opts: Options, w: World, ghost rooms: set<string>)
    returns (finalPath: Option<seq<string>>)
    requires start in rooms
    requires forall room, exit :: room in rooms && exit in Exits(w, room) ==> exit in rooms
    ensures finalPath.Some? ==> GoodPath(w, opts, start, target, target, finalPath.value)
    ensures start == target && start != "" ==> finalPath == Some([])
  {
    var first := Info(0.0, w.distance(start, target), start, []);
    var open := [Entry(start, first)];
    var closed: set<string> := {};
    finalPath := None;
    KeySetCons(open);
    assert open[1..] == [];
    while |open| > 0
      invariant DistinctKeys(open) && KeySet(open) !! closed && KeySet(open) + closed <= rooms
      invariant AllGood(w, opts, start, target, open)
      invariant start in closed || (open == [Entry(start, first)] && closed == {})
      invariant start == target && start != "" ==> open == [Entry(start, first)] && closed == {}
      invariant finalPath.None?
      decreases rooms - closed
    {
      var next := NextRoom(open);
      var nextRoom := open[next.value].key;
      if nextRoom == "" {
        break;
      }
      var info := open[next.value].value;
      assert GoodPath(w, opts, start, target, nextRoom, info.path);
      assert nextRoom in KeySet(open);
      forall j | 0 <= j < |Remove(open, nextRoom)|
        ensures GoodPath(w, opts, start, target, Remove(open, nextRoom)[j].key, Remove(open, nextRoom)[j].value.path)
      {
        RemoveFrom(open, nextRoom, j);
      }
      RemoveDistinct(open, nextRoom);
      open := Remove(open, nextRoom);
      closed := closed + {nextRoom};
      if nextRoom == target {
        finalPath := Some(info.path);
        break;
      }
      if HasLimit(opts) && |info.path| >= opts.maxPathLength.value {
        // The path is as long as allowed: add no more exits.
        continue;
      }
      var exits := Exits(w, nextRoom);
      ExpandFromKeys(w, opts, target, open, closed, info, exits, 0, 1.0);
      ExpandFromGood(w, opts, start, target, open, closed, nextRoom, info, 0, 1.0);
      var grown := Expand(w, opts, target, open, closed, info, exits);
      open := grown;
    }
  }
}
