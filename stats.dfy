/**
 * Long-term statistics: each value is recorded at level 1; every tenth value
 * at a level rolls that level over, pushing the mean of its ten values one
 * level up (level 10, 100, ...) and keeping them as the previous values.
 */
module Stats {
  import opened Common

  /** Values per level before it rolls over. */
  const Increment: nat := 10

  /** One level of a statistic's history. */
  datatype Level = Level(currentValues: seq<real>, previousValues: seq<real>)

  function Sum(values: seq<real>): real
  {
    if values == [] then 0.0 else Sum(values[..|values| - 1]) + values[|values| - 1]
  }

  /** `_.sum(values) / values.length` on a non-empty list. */
  function Mean(values: seq<real>): real
    requires values != []
  {
    Sum(values) / (|values| as real)
  }

  /** The levels at or above `m` that are full and would roll over. */
  function FullAbove(levels: map<nat, Level>, m: nat): set<nat>
  {
    set k | k in levels && k >= m && |levels[k].currentValues| >= Increment
  }

  /** Rolling a full level over moves to a level with strictly fewer full levels above it. */
  lemma FullAboveShrinks(levels: map<nat, Level>, m: nat)
    requires m >= 1 && m in levels && |levels[m].currentValues| >= Increment
    ensures FullAbove(levels, m * Increment) < FullAbove(levels, m)
  {
    assert m in FullAbove(levels, m) && m !in FullAbove(levels, m * Increment);
  }

  /** Every level holds at most `Increment` current values. */
  predicate Bounded(levels: map<nat, Level>)
  {
    forall k :: k in levels ==> |levels[k].currentValues| <= Increment
  }

  /**
   * The levels after `saveStatValue(levels, m, v)`: `v` is appended at level
   * `m` (created empty when missing); a level already holding ten values
   * first sends their mean to level `10·m`, keeps them as its previous values
   * and starts over. Lower levels are untouched, and if no level held more
   * than ten values, none does afterwards.
   */
  function Saved(levels: map<nat, Level>, m: nat, v: real): (r: map<nat, Level>)
    requires m >= 1
    ensures m in r && r[m].currentValues != [] && r[m].currentValues[|r[m].currentValues| - 1] == v
    ensures levels.Keys + {m} <= r.Keys
    ensures forall k :: k in levels && k < m ==> k in r && r[k] == levels[k]
    ensures m in levels && |levels[m].currentValues| >= Increment ==>
              r[m] == Level([v], levels[m].currentValues)
    ensures !(m in levels && |levels[m].currentValues| >= Increment) ==>
              r[m].currentValues == (if m in levels then levels[m].currentValues else []) + [v] &&
              r[m].previousValues == (if m in levels then levels[m].previousValues else []) &&
              r == levels[m := r[m]]
    ensures Bounded(levels) ==> Bounded(r)
    decreases FullAbove(levels, m)
  {
    var level := if m in levels then levels[m] else Level([], []);
    if |level.currentValues| >= Increment then
      FullAboveShrinks(levels, m);
      var up := Saved(levels, m * Increment, Mean(level.currentValues));
      up[m := Level([v], level.currentValues)]
    else
      levels[m := level.(currentValues := level.currentValues + [v])]
  }

  /** A rollover sends exactly the mean of the ten values it retires to the next level. */
  lemma RolloverCarriesMean(levels: map<nat, Level>, m: nat, v: real)
    requires m >= 1 && m in levels && |levels[m].currentValues| >= Increment
    ensures var r := Saved(levels, m, v);
            m * Increment in r &&
            r[m * Increment].currentValues[|r[m * Increment].currentValues| - 1] == Mean(levels[m].currentValues)
  {
    FullAboveShrinks(levels, m);
  }

  /** A statistic's history: its levels, changed in place. */
  class History {
    var levels: map<nat, Level>

    constructor()
      ensures levels == map[]
    {
      levels := map[];
    }

    /** `saveStatValue`: records `value` at level `multiplier`, rolling full levels over upwards. */
    method SaveStatValue(multiplier: nat, value: real)
      requires multiplier >= 1
      modifies this
      ensures levels == Saved(old(levels), multiplier, value)
      decreases FullAbove(levels, multiplier)
    {
      ghost var before := levels;
      if multiplier !in levels {
        levels := levels[multiplier := Level([], [])];
      }
      var level := levels[multiplier];
      if |level.currentValues| >= Increment {
        var avg := Sum(level.currentValues);
        avg := avg / (|level.currentValues| as real);
        FullAboveShrinks(levels, multiplier);
        SaveStatValue(multiplier * Increment, avg);
        ghost var up := levels;
        assert up == Saved(before, multiplier * Increment, Mean(level.currentValues));
        levels := levels[multiplier := levels[multiplier].(previousValues := level.currentValues)];
        levels := levels[multiplier := levels[multiplier].(currentValues := [])];
        assert [] + [value] == [value];
        levels := levels[multiplier := levels[multiplier].(currentValues := levels[multiplier].currentValues + [value])];
      } else {
        levels := levels[multiplier := levels[multiplier].(currentValues := levels[multiplier].currentValues + [value])];
      }
    }
  }

  /** `Memory.history`: each statistic's history by key, when it exists. */
  class StatsMemory {
    var history: Option<map<string, History>>

    constructor()
      ensures history.None?
    {
      history := None;
    }

    /** The object `recordStat` may change: the existing history of `key`, if any. */
    function Touched(key: string): set<object>
      reads this
    {
      if history.Some? && key in history.value then {history.value[key]} else {}
    }

    /** `recordStat`: creates the history of `key` on demand and records the value at level 1. */
    method RecordStat(key: string, value: real)
      modifies this, Touched(key)
      ensures history.Some? && key in history.value
      ensures old(history).Some? && key in old(history).value ==> history.value == old(history).value
      ensures !(old(history).Some? && key in old(history).value) ==>
                fresh(history.value[key]) && history.value == Bins(old(history))[key := history.value[key]]
      ensures history.value[key].levels == Saved(if key in Bins(old(history)) then old(Bins(history)[key].levels) else map[], 1, value)
    {
      if history.None? {
        history := Some(map[]);
      }
      if key !in history.value {
        var created := new History();
        history := Some(history.value[key := created]);
      }
      var h := history.value[key];
      h.SaveStatValue(1, value);
    }

    /** `getStat`: the latest value at the given level, or nothing when there is none. */
    function GetStat(key: string, interval: nat): (r: Option<real>)
      reads this, Touched(key)
      ensures r.Some? <==> history.Some? && key in history.value && interval in history.value[key].levels &&
                           history.value[key].levels[interval].currentValues != []
      ensures r.Some? ==> var cur := history.value[key].levels[interval].currentValues; r.value == cur[|cur| - 1]
    {
      if history.None? || key !in history.value || interval !in history.value[key].levels then None
      else
        var cur := history.value[key].levels[interval].currentValues;
        if cur == [] then None else Some(cur[|cur| - 1])
    }
  }

  /** A missing `Memory.history` reads as empty. */
  function Bins(history: Option<map<string, History>>): map<string, History>
  {
    if history.Some? then history.value else map[]
  }

  /** Just after a value is recorded, `getStat` at level 1 reads it back. */
  lemma RecordThenGet(levels: map<nat, Level>, value: real)
    ensures var r := Saved(levels, 1, value);
            1 in r && r[1].currentValues != [] && r[1].currentValues[|r[1].currentValues| - 1] == value
  {
  }
}
