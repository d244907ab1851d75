/**
 * Segmented memory: a key/value store kept in the game's raw memory
 * segments. On start-up every segment of the last complete save is loaded
 * (at most ten are requested per tick); once loaded, the store is ready and
 * is written back, a few segments per tick, into the other bank of segments
 * (starting at 45 or at 0) every 100 ticks.
 */
module SegmentedMemory {
  import opened Common

  /** The game makes at most this many segments available per tick. */
  const MaxActiveSegments: nat := 10

  /** A segment holds at most this many characters. */
  const MaxSegmentLength: nat := 100000

  /** `Memory.segmented`: where the last complete save lives, and when it was made. */
  class Meta {
    var lastFullSave: int
    var startSegment: int
    var endSegment: int

    constructor(lastFullSave: int, startSegment: int, endSegment: int)
      ensures this.lastFullSave == lastFullSave
      ensures this.startSegment == startSegment && this.endSegment == endSegment
    {
      this.lastFullSave := lastFullSave;
      this.startSegment := startSegment;
      this.endSegment := endSegment;
    }
  }

  /** The persistent `Memory` object, which may or may not hold `segmented` yet. */
  class Root {
    var segmented: Meta?

    constructor(segmented: Meta?)
      ensures this.segmented == segmented
    {
      this.segmented := segmented;
    }
  }

  /**
   * `RawMemory`: the texts of the segments available this tick, and the list
   * last passed to `setActiveSegments` (the segments asked for next tick).
   */
  class Raw {
    var segments: map<int, string>
    var active: seq<int>

    constructor(segments: map<int, string>, active: seq<int>)
      ensures this.segments == segments && this.active == active
    {
      this.segments := segments;
      this.active := active;
    }
  }

  /** The result of an accessor: its value, or the error thrown while the store is not ready. */
  datatype Outcome<T> = Done(value: T) | NotReady

  /** `_.range(lo, hi)`: the integers from `lo` up to but not including `hi`. */
  function Range(lo: int, hi: int): (r: seq<int>)
    ensures |r| == if hi >= lo then hi - lo else 0
    ensures forall k :: 0 <= k < |r| ==> r[k] == lo + k
  {
    if hi <= lo then [] else seq(hi - lo, k requires 0 <= k < hi - lo => lo + k)
  }

  // ---------------------------------------------------------------------------
  // Loading.
  // ---------------------------------------------------------------------------

  /** `_.each(parsed, (value, key) => data[key] = value)`. */
  function PutAll<V>(data: Dict<V>, entries: Dict<V>): Dict<V>
    decreases |entries|
  {
    if entries == [] then data else PutAll(Put(data, entries[0].key, entries[0].value), entries[1..])
  }

  /** Every key of a loaded segment ends up in the store, and no other key is added. */
  lemma {:induction false} PutAllKeys<V>(data: Dict<V>, entries: Dict<V>)
    ensures KeySet(PutAll(data, entries)) == KeySet(data) + KeySet(entries)
    decreases |entries|
  {
    if entries != [] {
      PutKeys(data, entries[0].key, entries[0].value);
      PutAllKeys(Put(data, entries[0].key, entries[0].value), entries[1..]);
      KeySetCons(entries);
    }
  }

  /** The state of `reloadData`'s loop: the store, the segments loaded so far, whether all were there, and the segments to ask for. */
  datatype Loading<V> = Loading(data: Dict<V>, loaded: set<int>, allLoaded: bool, next: seq<int>)

  /**
   * One segment index of `reloadData`: a loaded segment is skipped; a
   * segment that is not available clears `allLoaded` and is asked for while
   * fewer than ten are; an available one is parsed into the store (a text
   * that does not parse adds nothing) and counts as loaded either way.
   */
  function LoadSegment<V>(st: Loading<V>, i: int, segments: map<int, string>, parse: string -> Option<Dict<V>>): Loading<V>
  {
    if i in st.loaded then st
    else if i !in segments then
      st.(allLoaded := false, next := if |st.next| < MaxActiveSegments then st.next + [i] else st.next)
    else
      var parsed := parse(segments[i]);
      st.(data := if parsed.Some? then PutAll(st.data, parsed.value) else st.data, loaded := st.loaded + {i})
  }

  /** The loop of `reloadData` over the segment indices `i .. hi`. */
  function LoadRange<V>(st: Loading<V>, i: int, hi: int, segments: map<int, string>,
                        parse: string -> Option<Dict<V>>): Loading<V>
    decreases hi - i + 1
  {
    if i > hi then st else LoadRange(LoadSegment(st, i, segments, parse), i + 1, hi, segments, parse)
  }

  /**
   * The segments asked for: never more than ten, the earlier requests kept,
   * and each new one a missing segment of the range that was not loaded
   * before.
   */
  lemma {:induction false} LoadRangeRequests<V>(st: Loading<V>, i: int, hi: int, segments: map<int, string>,
                                                 parse: string -> Option<Dict<V>>)
    requires |st.next| <= MaxActiveSegments
    ensures var r := LoadRange(st, i, hi, segments, parse);
            |st.next| <= |r.next| <= MaxActiveSegments && r.next[..|st.next|] == st.next
            && forall k :: |st.next| <= k < |r.next| ==>
                 i <= r.next[k] <= hi && r.next[k] !in st.loaded && r.next[k] !in segments
    decreases hi - i + 1
  {
    if i <= hi {
      var step := LoadSegment(st, i, segments, parse);
      LoadRangeRequests(step, i + 1, hi, segments, parse);
      var r := LoadRange(step, i + 1, hi, segments, parse);
      assert step.loaded == st.loaded || step.loaded == st.loaded + {i};
      assert r.next[..|st.next|] == r.next[..|step.next|][..|st.next|];
    }
  }

  /** While fewer than ten are asked for, every missing segment of the range not loaded before is. */
  lemma {:induction false} LoadRangeAsksAll<V>(st: Loading<V>, i: int, hi: int, segments: map<int, string>,
                                                parse: string -> Option<Dict<V>>)
    requires |st.next| <= MaxActiveSegments
    ensures var r := LoadRange(st, i, hi, segments, parse);
            |r.next| < MaxActiveSegments ==>
              forall j :: i <= j <= hi && j !in st.loaded && j !in segments ==> j in r.next
    decreases hi - i + 1
  {
    if i <= hi {
      var step := LoadSegment(st, i, segments, parse);
      LoadRangeAsksAll(step, i + 1, hi, segments, parse);
      LoadRangeRequests(step, i + 1, hi, segments, parse);
      var r := LoadRange(step, i + 1, hi, segments, parse);
      assert step.loaded == st.loaded || step.loaded == st.loaded + {i};
      if i !in st.loaded && i !in segments && |r.next| < MaxActiveSegments {
        assert step.next[|st.next|] == i;
        assert r.next[..|step.next|] == step.next;
        assert r.next[|st.next|] == i;
      }
    }
  }

  /** The segments loaded after the range: the earlier ones plus every available one in it. */
  lemma {:induction false} LoadRangeLoaded<V>(st: Loading<V>, i: int, hi: int, segments: map<int, string>,
                                               parse: string -> Option<Dict<V>>)
    ensures forall j :: j in LoadRange(st, i, hi, segments, parse).loaded <==>
              j in st.loaded || (i <= j <= hi && j in segments)
    decreases hi - i + 1
  {
    if i <= hi {
      LoadRangeLoaded(LoadSegment(st, i, segments, parse), i + 1, hi, segments, parse);
    }
  }

  /** `allLoaded` stays set exactly when every segment of the range was loaded before or is available. */
  lemma {:induction false} LoadRangeReady<V>(st: Loading<V>, i: int, hi: int, segments: map<int, string>,
                                              parse: string -> Option<Dict<V>>)
    ensures LoadRange(st, i, hi, segments, parse).allLoaded <==>
              st.allLoaded && forall j :: i <= j <= hi ==> j in st.loaded || j in segments
    decreases hi - i + 1
  {
    if i <= hi {
      LoadRangeReady(LoadSegment(st, i, segments, parse), i + 1, hi, segments, parse);
    }
  }

  // ---------------------------------------------------------------------------
  // Saving.
  // ---------------------------------------------------------------------------

  /** The bank a new save starts in: 45 when the last save starts at 0, otherwise 0. */
  function OtherBank(start: int): (r: int)
    ensures r != start
    ensures r == 0 || r == 45
  {
    if start == 0 then 45 else 0
  }

  /** The text of one entry appended to a segment's text: `"key":part`, after a comma unless the text is empty. */
  function Piece(text: string, key: string, part: string): (r: string)
    ensures |r| == |text| + (if |text| > 0 then 1 else 0) + |key| + |part| + 3
    ensures r[..|text|] == text
  {
    text + (if |text| > 0 then "," else "") + "\"" + key + "\":" + part
  }

  /** The length `saveData` reserves for an entry: its part, its key, two quotes, a colon and a comma. */
  function PartLength(key: string, part: string): nat
  {
    |part| + |key| + 4
  }

  /**
   * The state of `saveData`'s loop: the segment texts, the keys saved this
   * cycle, the segment being filled, its text so far, and whether the loop
   * is still running (`allSaved`).
   */
  datatype Saving = Saving(segments: map<int, string>, saved: set<string>, current: int, text: string, allSaved: bool)

  /** Where `saveData` starts: a new cycle starts empty in the other bank, a running one where it stopped. */
  function SaveStart(savedKeys: Option<set<string>>, currentSegment: int, bankStart: int, segments: map<int, string>): (r: Saving)
    ensures r.segments == segments && r.text == "" && r.allSaved
    ensures savedKeys.None? ==> r.saved == {} && r.current == OtherBank(bankStart)
    ensures savedKeys.Some? ==> r.saved == savedKeys.value && r.current == currentSegment
  {
    if savedKeys.None? then Saving(segments, {}, OtherBank(bankStart), "", true)
    else Saving(segments, savedKeys.value, currentSegment, "", true)
  }

  /**
   * One entry of `saveData`: stop when the current segment is not
   * available; skip a key saved earlier in the cycle; when the part would
   * take the text past the segment length, write the text out, move to the
   * next segment and stop if that one is not available; otherwise append
   * the part and mark the key saved.
   */
  function SaveEntry(st: Saving, key: string, part: string): Saving
  {
    if !st.allSaved then st
    else if st.current !in st.segments then st.(allSaved := false)
    else if key in st.saved then st
    else if |st.text| + PartLength(key, part) > MaxSegmentLength then
      var segments := st.segments[st.current := st.text];
      if st.current + 1 !in segments then Saving(segments, st.saved, st.current + 1, "", false)
      else Saving(segments, st.saved + {key}, st.current + 1, Piece("", key, part), true)
    else st.(saved := st.saved + {key}, text := Piece(st.text, key, part))
  }

  /** The loop of `saveData` over the store's entries from index `i` on, each value stringified. */
  function SaveFrom<V>(st: Saving, entries: Dict<V>, i: nat, stringify: V -> string): Saving
    requires i <= |entries|
    decreases |entries| - i
  {
    if i == |entries| then st
    else SaveFrom(SaveEntry(st, entries[i].key, stringify(entries[i].value)), entries, i + 1, stringify)
  }

  /** Once the loop has stopped, the remaining entries change nothing: the source's early `return false`. */
  lemma {:induction false} SaveFromStopped<V>(st: Saving, entries: Dict<V>, i: nat, stringify: V -> string)
    requires i <= |entries| && !st.allSaved
    ensures SaveFrom(st, entries, i, stringify) == st
    decreases |entries| - i
  {
    if i < |entries| {
      SaveFromStopped(st, entries, i + 1, stringify);
    }
  }

  /** The keys whose parts the loop appends, in order. */
  function Written<V>(st: Saving, entries: Dict<V>, i: nat, stringify: V -> string): seq<string>
    requires i <= |entries|
    decreases |entries| - i
  {
    if i == |entries| then []
    else
      var key := entries[i].key;
      var next := SaveEntry(st, key, stringify(entries[i].value));
      (if next.saved != st.saved then [key] else []) + Written(next, entries, i + 1, stringify)
  }

  /**
   * Each key is written at most once per save cycle: the keys appended are
   * all different, none was saved earlier in the cycle, and exactly they
   * join the saved keys.
   */
  lemma {:induction false} SaveFromWritesOnce<V>(st: Saving, entries: Dict<V>, i: nat, stringify: V -> string)
    requires i <= |entries|
    ensures var w := Written(st, entries, i, stringify);
            (forall k :: k in SaveFrom(st, entries, i, stringify).saved <==> k in st.saved || k in w)
            && (forall k :: 0 <= k < |w| ==> w[k] !in st.saved)
            && (forall k, l :: 0 <= k < l < |w| ==> w[k] != w[l])
    decreases |entries| - i
  {
    if i < |entries| {
      var key := entries[i].key;
      var next := SaveEntry(st, key, stringify(entries[i].value));
      SaveFromWritesOnce(next, entries, i + 1, stringify);
      if next.saved != st.saved {
        assert next.saved == st.saved + {key} && key !in st.saved;
        assert Written(st, entries, i, stringify) == [key] + Written(next, entries, i + 1, stringify);
      } else {
        assert Written(st, entries, i, stringify) == Written(next, entries, i + 1, stringify);
      }
    }
  }

  /** Every segment text, and the text being built, stays within the segment length. */
  predicate WithinLength(st: Saving)
  {
    |st.text| <= MaxSegmentLength && forall j :: j in st.segments ==> |st.segments[j]| <= MaxSegmentLength
  }

  /** Every entry's part fits in an empty segment. */
  predicate PartsFit<V>(entries: Dict<V>, stringify: V -> string)
  {
    forall k :: 0 <= k < |entries| ==> PartLength(entries[k].key, stringify(entries[k].value)) <= MaxSegmentLength
  }

  /**
   * The flush comes before a part would take a segment past 100000
   * characters: when every part fits on its own, no segment written grows
   * past the limit.
   */
  lemma {:induction false} SaveFromWithinLength<V>(st: Saving, entries: Dict<V>, i: nat, stringify: V -> string)
    requires i <= |entries| && WithinLength(st) && PartsFit(entries, stringify)
    ensures WithinLength(SaveFrom(st, entries, i, stringify))
    decreases |entries| - i
  {
    if i < |entries| {
      assert PartLength(entries[i].key, stringify(entries[i].value)) <= MaxSegmentLength;
      SaveFromWithinLength(SaveEntry(st, entries[i].key, stringify(entries[i].value)), entries, i + 1, stringify);
    }
  }

  /**
   * Only segments from the one being filled onwards are written, and the
   * loop only moves forward; when it stops early the segment it needs is
   * missing and nothing built is dropped.
   */
  lemma {:induction false} SaveFromProgress<V>(st: Saving, entries: Dict<V>, i: nat, stringify: V -> string)
    requires i <= |entries|
    requires st.allSaved && st.text != "" ==> st.current in st.segments
    ensures var r := SaveFrom(st, entries, i, stringify);
            st.current <= r.current
            && (forall j :: j in st.segments && !(st.current <= j < r.current) ==> j in r.segments && r.segments[j] == st.segments[j])
            && (st.allSaved && !r.allSaved ==> r.current !in r.segments && r.text == "")
            && (r.allSaved ==> st.allSaved && (r.text != "" ==> r.current in r.segments))
    decreases |entries| - i
  {
    if i < |entries| {
      var next := SaveEntry(st, entries[i].key, stringify(entries[i].value));
      if next.allSaved {
        SaveFromProgress(next, entries, i + 1, stringify);
      } else {
        SaveFromStopped(next, entries, i + 1, stringify);
      }
    }
  }

  // ---------------------------------------------------------------------------
  // The store.
  // ---------------------------------------------------------------------------

  /**
   * The store: its entries, whether it is ready, the segments loaded so far
   * while it is not, and the progress of a save cycle spread over ticks
   * (`savedKeys` is `None` between cycles; `currentSegment` and
   * `startSegment` only mean something during one).
   */
  class SegmentedMemory<V> {
    var isReady: bool
    var data: Dict<V>
    var loadedSegments: Option<set<int>>
    var savedKeys: Option<set<string>>
    var currentSegment: int
    var startSegment: int
    var memory: Meta?

    constructor()
      ensures !isReady && data == [] && loadedSegments.None? && savedKeys.None? && memory == null
    {
      isReady := false;
      data := [];
      loadedSegments := None;
      savedKeys := None;
      currentSegment := 0;
      startSegment := 0;
      memory := null;
    }

    /** `get(key)`: the stored value, `undefined` as `None`. */
    function Get(key: string): (r: Outcome<Option<V>>)
      reads this
      ensures r.NotReady? <==> !isReady
      ensures r.Done? ==> (r.value.Some? <==> key in KeySet(data))
    {
      if !isReady then NotReady else Done(Lookup(data, key))
    }

    /** `has(key)`: whether a value is stored under the key. */
    function Has(key: string): (r: Outcome<bool>)
      reads this
      ensures r.NotReady? <==> !isReady
      ensures r.Done? ==> (r.value <==> key in KeySet(data))
    {
      if !isReady then NotReady else Done(Lookup(data, key).Some?)
    }

    /** `set(key, value)`: afterwards `get(key)` is the value and `has(key)` holds; other keys keep theirs. */
    method Set(key: string, value: V) returns (r: Outcome<()>)
      modifies this
      ensures r.NotReady? <==> !old(isReady)
      ensures data == if old(isReady) then Put(old(data), key, value) else old(data)
      ensures old(isReady) ==> Get(key) == Done(Some(value)) && Has(key) == Done(true)
      ensures forall j :: j != key ==> Get(j) == old(Get(j))
      ensures isReady == old(isReady) && loadedSegments == old(loadedSegments) && memory == old(memory)
      ensures savedKeys == old(savedKeys) && currentSegment == old(currentSegment) && startSegment == old(startSegment)
    {
      if !isReady {
        return NotReady;
      }
      forall j {
        LookupPut(data, key, value, j);
      }
      data := Put(data, key, value);
      r := Done(());
    }

    /** `delete(key)`: afterwards `has(key)` is false; other keys keep their values. */
    method Delete(key: string) returns (r: Outcome<()>)
      modifies this
      ensures r.NotReady? <==> !old(isReady)
      ensures data == if old(isReady) then Remove(old(data), key) else old(data)
      ensures old(isReady) ==> Has(key) == Done(false) && Get(key) == Done(None)
      ensures forall j :: j != key ==> Get(j) == old(Get(j))
      ensures isReady == old(isReady) && loadedSegments == old(loadedSegments) && memory == old(memory)
      ensures savedKeys == old(savedKeys) && currentSegment == old(currentSegment) && startSegment == old(startSegment)
    {
      if !isReady {
        return NotReady;
      }
      data := Remove(data, key);
      r := Done(());
    }

    /** `forceSave()`: moves the last save back so that the next tick's `manage` saves. */
    method ForceSave(time: int) returns (r: Outcome<()>)
      requires isReady ==> memory != null
      modifies memory
      ensures r.NotReady? <==> !isReady
      ensures isReady ==> memory.lastFullSave == time - 100
      ensures isReady ==> memory.startSegment == old(memory.startSegment) && memory.endSegment == old(memory.endSegment)
      ensures !isReady ==> memory == null || unchanged(memory)
    {
      if !isReady {
        return NotReady;
      }
      memory.lastFullSave := time - 100;
      r := Done(());
    }

    /** The body of `_.each(parsed, ...)`: every parsed entry is stored in turn. */
    method Absorb(entries: Dict<V>)
      modifies this
      ensures data == PutAll(old(data), entries)
      ensures isReady == old(isReady) && loadedSegments == old(loadedSegments) && memory == old(memory)
      ensures savedKeys == old(savedKeys) && currentSegment == old(currentSegment) && startSegment == old(startSegment)
    {
      var k := 0;
      while k < |entries|
        invariant 0 <= k <= |entries|
        invariant PutAll(data, entries[k..]) == PutAll(old(data), entries)
        invariant isReady == old(isReady) && loadedSegments == old(loadedSegments) && memory == old(memory)
        invariant savedKeys == old(savedKeys) && currentSegment == old(currentSegment) && startSegment == old(startSegment)
      {
        assert entries[k..][1..] == entries[k + 1..];
        data := Put(data, entries[k].key, entries[k].value);
        k := k + 1;
      }
    }

    /**
     * `reloadData()`: walks the segments of the last complete save, loads
     * the available ones not loaded yet, asks for at most ten missing ones,
     * and becomes ready once none is missing.
     */
    method ReloadData(raw: Raw, parse: string -> Option<Dict<V>>)
      requires memory != null
      modifies this, raw
      ensures memory == old(memory)
      ensures var r := LoadRange(Loading(old(data), if old(loadedSegments).Some? then old(loadedSegments).value else {}, true, []),
                                 memory.startSegment, memory.endSegment, raw.segments, parse);
              data == r.data && raw.active == r.next
              && isReady == (old(isReady) || r.allLoaded)
              && loadedSegments == (if r.allLoaded then None else Some(r.loaded))
      ensures raw.segments == old(raw.segments)
      ensures savedKeys == old(savedKeys) && currentSegment == old(currentSegment) && startSegment == old(startSegment)
    {
      if loadedSegments.None? {
        loadedSegments := Some({});
      }
      var allLoaded := true;
      var nextActiveSegments: seq<int> := [];
      var i := memory.startSegment;
      ghost var goal := LoadRange(Loading(data, loadedSegments.value, true, []), i, memory.endSegment, raw.segments, parse);
      while i <= memory.endSegment
        invariant loadedSegments.Some? && memory == old(memory) && isReady == old(isReady)
        invariant LoadRange(Loading(data, loadedSegments.value, allLoaded, nextActiveSegments), i, memory.endSegment, raw.segments, parse) == goal
        invariant savedKeys == old(savedKeys) && currentSegment == old(currentSegment) && startSegment == old(startSegment)
        invariant raw.segments == old(raw.segments)
        decreases memory.endSegment - i
      {
        if i in loadedSegments.value {
          i := i + 1;
          continue;
        }
        if i !in raw.segments {
          allLoaded := false;
          if |nextActiveSegments| < MaxActiveSegments {
            nextActiveSegments := nextActiveSegments + [i];
          }
          i := i + 1;
          continue;
        }
        var parsed := parse(raw.segments[i]);
        if parsed.Some? {
          Absorb(parsed.value);
        }
        loadedSegments := Some(loadedSegments.value + {i});
        i := i + 1;
      }
      raw.active := nextActiveSegments;
      if allLoaded {
        isReady := true;
        loadedSegments := None;
      }
    }

    /** The body of `saveData`'s `_.each` for one entry, while the loop is running: `SaveEntry` in place. */
    method SaveOne(raw: Raw, key: string, value: V, stringified: string, stringify: V -> string)
      returns (text: string, allSaved: bool)
      requires savedKeys.Some?
      modifies this, raw
      ensures savedKeys.Some?
      ensures Saving(raw.segments, savedKeys.value, currentSegment, text, allSaved)
              == SaveEntry(Saving(old(raw.segments), old(savedKeys.value), old(currentSegment), stringified, true),
                           key, stringify(value))
      ensures raw.active == if allSaved then old(raw.active) else Range(currentSegment, currentSegment + MaxActiveSegments - 1)
      ensures data == old(data) && isReady == old(isReady) && loadedSegments == old(loadedSegments)
      ensures memory == old(memory) && startSegment == old(startSegment)
    {
      text, allSaved := stringified, true;
      if currentSegment !in raw.segments {
        // Can't save more data this tick.
        raw.active := Range(currentSegment, currentSegment + MaxActiveSegments - 1);
        return text, false;
      }
      if key in savedKeys.value {
        return;
      }
      var part := stringify(value);
      var partLength := |part| + |key| + 4;
      if |text| + partLength > MaxSegmentLength {
        raw.segments := raw.segments[currentSegment := text];
        currentSegment := currentSegment + 1;
        text := "";
        if currentSegment !in raw.segments {
          raw.active := Range(currentSegment, currentSegment + MaxActiveSegments - 1);
          return text, false;
        }
      }
      text := text + (if |text| > 0 then "," else "") + "\"" + key + "\":" + part;
      savedKeys := Some(savedKeys.value + {key});
    }

    /**
     * `saveData()`: writes the entries not saved yet in this cycle into
     * consecutive segments. When a segment it needs is not available it asks
     * for it and the eight after it and stops until a later tick; when every
     * entry is written it stores the remainder, records where the new save
     * lives and when it was made, and closes the cycle.
     */
    method SaveData(raw: Raw, time: int, stringify: V -> string)
      requires memory != null
      modifies this, raw, memory
      ensures memory == old(memory)
      ensures var first := SaveStart(old(savedKeys), old(currentSegment), old(memory.startSegment), old(raw.segments));
              var r := SaveFrom(first, old(data), 0, stringify);
              startSegment == (if old(savedKeys).None? then first.current else old(startSegment))
              && (r.allSaved ==>
                    raw.segments == r.segments[r.current := r.text] && raw.active == old(raw.active)
                    && memory.startSegment == startSegment && memory.endSegment == r.current
                    && memory.lastFullSave == time && savedKeys.None?)
              && (!r.allSaved ==>
                    raw.segments == r.segments && raw.active == Range(r.current, r.current + MaxActiveSegments - 1)
                    && savedKeys == Some(r.saved) && currentSegment == r.current && unchanged(memory))
      ensures data == old(data) && isReady == old(isReady) && loadedSegments == old(loadedSegments)
    {
      if savedKeys.None? {
        savedKeys := Some({});
        currentSegment := if memory.startSegment == 0 then 45 else 0;
        startSegment := currentSegment;
      }
      var stringified := "";
      var allSaved := true;
      var i := 0;
      ghost var start := startSegment;
      ghost var goal := SaveFrom(Saving(raw.segments, savedKeys.value, currentSegment, "", true), data, 0, stringify);
      while i < |data| && allSaved
        invariant 0 <= i <= |data| && savedKeys.Some? && memory == old(memory) && unchanged(memory)
        invariant SaveFrom(Saving(raw.segments, savedKeys.value, currentSegment, stringified, allSaved), data, i, stringify) == goal
        invariant raw.active == if allSaved then old(raw.active) else Range(currentSegment, currentSegment + MaxActiveSegments - 1)
        invariant data == old(data) && isReady == old(isReady) && loadedSegments == old(loadedSegments)
        invariant startSegment == start
      {
        stringified, allSaved := SaveOne(raw, data[i].key, data[i].value, stringified, stringify);
        i := i + 1;
      }
      ghost var r := Saving(raw.segments, savedKeys.value, currentSegment, stringified, allSaved);
      if !allSaved {
        SaveFromStopped(r, data, i, stringify);
      }
      assert r == goal;
      if allSaved {
        Complete(raw, time, stringified);
      }
    }

    /** The end of a save cycle: the remainder is written and the new save is registered. */
    method Complete(raw: Raw, time: int, stringified: string)
      requires memory != null
      modifies this, raw, memory
      ensures raw.segments == old(raw.segments)[currentSegment := stringified] && raw.active == old(raw.active)
      ensures memory == old(memory) && memory.startSegment == startSegment && memory.endSegment == currentSegment
      ensures memory.lastFullSave == time && savedKeys.None?
      ensures currentSegment == old(currentSegment) && startSegment == old(startSegment)
      ensures data == old(data) && isReady == old(isReady) && loadedSegments == old(loadedSegments)
    {
      raw.segments := raw.segments[currentSegment := stringified];
      memory.startSegment := startSegment;
      memory.endSegment := currentSegment;
      memory.lastFullSave := time;
      savedKeys := None;
    }

    /**
     * `manage()`, once per tick: the first time, with no `Memory.segmented`,
     * records an empty save at segment 0 dated 100 ticks back and is ready
     * at once; otherwise a store that is not ready keeps loading, and a
     * ready one saves once more than 100 ticks have passed since the last
     * complete save.
     */
    method Manage(root: Root, raw: Raw, time: int, parse: string -> Option<Dict<V>>, stringify: V -> string)
      modifies this, root, raw, root.segmented
      ensures memory == root.segmented && memory != null
      ensures old(root.segmented) == null ==>
                fresh(memory) && memory.lastFullSave == time - 100 && memory.startSegment == 0 && memory.endSegment == 0
                && isReady && data == old(data) && savedKeys == old(savedKeys) && unchanged(raw)
      ensures old(root.segmented) != null ==> memory == old(root.segmented)
      ensures old(root.segmented) != null && !old(isReady) ==>
                var r := LoadRange(Loading(old(data), if old(loadedSegments).Some? then old(loadedSegments).value else {}, true, []),
                                   memory.startSegment, memory.endSegment, old(raw.segments), parse);
                data == r.data && raw.active == r.next && isReady == r.allLoaded
                && loadedSegments == (if r.allLoaded then None else Some(r.loaded))
                && savedKeys == old(savedKeys) && raw.segments == old(raw.segments) && unchanged(memory)
      ensures old(root.segmented) != null && old(isReady) && time - old(root.segmented.lastFullSave) <= 100 ==>
                data == old(data) && savedKeys == old(savedKeys) && unchanged(raw) && unchanged(memory)
      ensures old(root.segmented) != null && old(isReady) && time - old(root.segmented.lastFullSave) > 100 ==>
                var first := SaveStart(old(savedKeys), old(currentSegment), old(root.segmented.startSegment), old(raw.segments));
                var r := SaveFrom(first, old(data), 0, stringify);
                data == old(data) && isReady && loadedSegments == old(loadedSegments)
                && startSegment == (if old(savedKeys).None? then first.current else old(startSegment))
                && (r.allSaved ==>
                      raw.segments == r.segments[r.current := r.text] && raw.active == old(raw.active)
                      && memory.startSegment == startSegment && memory.endSegment == r.current
                      && memory.lastFullSave == time && savedKeys.None?)
                && (!r.allSaved ==>
                      raw.segments == r.segments && raw.active == Range(r.current, r.current + MaxActiveSegments - 1)
                      && savedKeys == Some(r.saved) && currentSegment == r.current && unchanged(memory))
    {
      if root.segmented == null {
        root.segmented := new Meta(time - 100, 0, 0);
        isReady := true;
      }
      memory := root.segmented;
      if !isReady {
        ReloadData(raw, parse);
        return;
      }
      if time - memory.lastFullSave > 100 {
        SaveData(raw, time, stringify);
      }
    }
  }
}
