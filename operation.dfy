/**
 * Operations: named long-running undertakings whose state lives in the
 * persistent `Memory.operations` record under the operation's name, with a
 * ledger of resource and CPU costs and gains.
 */
module Operation {
  import opened Common

  /** One operation's persistent record; every field may be missing. */
  datatype OpRecord = OpRecord(
    opType: Option<string>,
    lastActive: Option<int>,
    roomName: Option<string>,
    stats: Option<map<string, real>>,
    shouldTerminate: Option<bool>,
    currentTick: Option<int>,
    statTicks: Option<int>)

  const EmptyRecord := OpRecord(None, None, None, None, None, None, None)

  /** `x || 0` on an optional integer (a stored 0 gives 0 as well). */
  function CountOrZero(o: Option<int>): int
  {
    if o.Some? then o.value else 0
  }

  /** `x || 0` on an optional amount (a stored 0 gives 0 as well). */
  function AmountOrZero(o: Option<real>): real
  {
    if o.Some? then o.value else 0.0
  }

  /**
   * The record after `recordStatChange(amount, resourceType)` at tick
   * `time`: the first change in a tick stamps the tick and counts it, and
   * the amount is added to the resource's running total.
   */
  function StatChange(r: OpRecord, amount: real, resourceType: string, time: int): (s: OpRecord)
    ensures s.currentTick == Some(time)
    ensures r.currentTick == Some(time) ==> s.statTicks == r.statTicks
    ensures r.currentTick != Some(time) ==> s.statTicks == Some(CountOrZero(r.statTicks) + 1)
    ensures s.stats.Some? && resourceType in s.stats.value
    ensures s.stats.value[resourceType] ==
              (if r.stats.Some? && resourceType in r.stats.value then r.stats.value[resourceType] else 0.0) + amount
    ensures forall t :: r.stats.Some? && t in r.stats.value && t != resourceType ==>
              t in s.stats.value && s.stats.value[t] == r.stats.value[t]
    ensures s.stats.value.Keys == (if r.stats.Some? then r.stats.value.Keys else {}) + {resourceType}
    ensures s.opType == r.opType && s.lastActive == r.lastActive && s.roomName == r.roomName
    ensures s.shouldTerminate == r.shouldTerminate
  {
    var stamped := if r.currentTick != Some(time)
                   then r.(currentTick := Some(time), statTicks := Some(CountOrZero(r.statTicks) + 1))
                   else r;
    var stats := if stamped.stats.Some? then stamped.stats.value else map[];
    var before := AmountOrZero(if resourceType in stats then Some(stats[resourceType]) else None);
    stamped.(stats := Some(stats[resourceType := before + amount]))
  }

  /** Within one tick the tick counter moves at most once, however many changes are recorded. */
  lemma SameTickCountsOnce(r: OpRecord, a: real, t: string, b: real, u: string, time: int)
    ensures StatChange(StatChange(r, a, t, time), b, u, time).statTicks == StatChange(r, a, t, time).statTicks
  {
  }

  /** A cost followed by an equal gain of the same resource leaves its total where it was. */
  lemma CostThenGainCancels(r: OpRecord, a: real, t: string, time: int)
    requires r.stats.Some? && t in r.stats.value
    ensures StatChange(StatChange(r, -a, t, time), a, t, time).stats.value[t] == r.stats.value[t]
  {
  }

  /** The persistent memory root holding every operation's record. */
  class OperationsMemory {
    var operations: Option<map<string, OpRecord>>

    constructor(operations: Option<map<string, OpRecord>>)
      ensures this.operations == operations
    {
      this.operations := operations;
    }
  }

  class Operation {
    const name: string
    const mem: OperationsMemory
    var roomName: Option<string>

    /** The operation's record exists in memory. */
    predicate Valid()
      reads this, mem
    {
      mem.operations.Some? && name in mem.operations.value
    }

    function Record(): OpRecord
      reads this, mem
      requires Valid()
    {
      mem.operations.value[name]
    }

    /**
     * Attaches to (or creates) the record under `name`, stamps the type
     * "default" and the tick, takes the room name over from memory and makes
     * sure a stats ledger exists.
     */
    constructor(name: string, mem: OperationsMemory, time: int)
      modifies mem
      ensures Valid() && this.name == name && this.mem == mem
      ensures Record() == Created(old(mem.operations), name, time)
      ensures roomName == (if Named(Record().roomName) then Record().roomName else None)
      ensures forall n :: old(mem.operations).Some? && n in old(mem.operations).value && n != name ==>
                n in mem.operations.value && mem.operations.value[n] == old(mem.operations).value[n]
    {
      var ops := if mem.operations.Some? then mem.operations.value else map[];
      var record := Created(mem.operations, name, time);
      this.name := name;
      this.mem := mem;
      this.roomName := if Named(record.roomName) then record.roomName else None;
      mem.operations := Some(ops[name := record]);
    }

    /** `RoomOperation`'s constructor: the plain one, then the type tag "room". */
    constructor Room(name: string, mem: OperationsMemory, time: int)
      modifies mem
      ensures Valid() && this.name == name && this.mem == mem
      ensures Record() == Created(old(mem.operations), name, time).(opType := Some("room"))
      ensures GetType() == "room"
      ensures roomName == (if Named(Record().roomName) then Record().roomName else None)
      ensures forall n :: old(mem.operations).Some? && n in old(mem.operations).value && n != name ==>
                n in mem.operations.value && mem.operations.value[n] == old(mem.operations).value[n]
    {
      var ops := if mem.operations.Some? then mem.operations.value else map[];
      var record := Created(mem.operations, name, time);
      this.name := name;
      this.mem := mem;
      this.roomName := if Named(record.roomName) then record.roomName else None;
      mem.operations := Some(ops[name := record.(opType := Some("room"))]);
    }

    /** `getType`: the stored type, or "default" when it is missing or empty. */
    function GetType(): (r: string)
      reads this, mem
      requires Valid()
      ensures r != ""
      ensures Named(Record().opType) ==> r == Record().opType.value
      ensures !Named(Record().opType) ==> r == "default"
    {
      if Named(Record().opType) then Record().opType.value else "default"
    }

    /** `setRoom`: the room is kept both on the object and in memory. */
    method SetRoom(room: string)
      requires Valid()
      modifies this, mem
      ensures Valid()
      ensures roomName == Some(room) && GetRoom() == Some(room)
      ensures Record() == old(Record()).(roomName := Some(room))
      ensures mem.operations.value == old(mem.operations.value)[name := Record()]
    {
      var record := Record().(roomName := Some(room));
      mem.operations := Some(mem.operations.value[name := record]);
      roomName := Some(room);
    }

    /** `getRoom`: the room set on this object, if any. */
    function GetRoom(): Option<string>
      reads this
    {
      roomName
    }

    /** `terminate`: flags the operation for removal; the hook it then calls is empty. */
    method Terminate()
      requires Valid()
      modifies mem
      ensures Valid()
      ensures Record() == old(Record()).(shouldTerminate := Some(true))
      ensures mem.operations.value == old(mem.operations.value)[name := Record()]
    {
      var record := Record().(shouldTerminate := Some(true));
      mem.operations := Some(mem.operations.value[name := record]);
    }

    /** `recordStatChange`: books an amount against a resource at tick `time`. */
    method RecordStatChange(amount: real, resourceType: string, time: int)
      requires Valid()
      modifies mem
      ensures Valid()
      ensures Record() == StatChange(old(Record()), amount, resourceType, time)
      ensures mem.operations.value == old(mem.operations.value)[name := Record()]
    {
      var record := Record();
      if record.currentTick != Some(time) {
        record := record.(currentTick := Some(time), statTicks := Some(CountOrZero(record.statTicks) + 1));
      }
      var stats := if record.stats.Some? then record.stats.value else map[];
      var before := if resourceType in stats then stats[resourceType] else 0.0;
      record := record.(stats := Some(stats[resourceType := before + amount]));
      mem.operations := Some(mem.operations.value[name := record]);
    }

    /** `addCpuCost`: CPU time is booked as a gain under "cpu". */
    method AddCpuCost(amount: real, time: int)
      requires Valid()
      modifies mem
      ensures Valid()
      ensures Record() == StatChange(old(Record()), amount, "cpu", time)
      ensures mem.operations.value == old(mem.operations.value)[name := Record()]
    {
      RecordStatChange(amount, "cpu", time);
    }

    /** `addResourceCost`: a cost is booked as the negated amount. */
    method AddResourceCost(amount: real, resourceType: string, time: int)
      requires Valid()
      modifies mem
      ensures Valid()
      ensures Record() == StatChange(old(Record()), -amount, resourceType, time)
      ensures mem.operations.value == old(mem.operations.value)[name := Record()]
    {
      RecordStatChange(-amount, resourceType, time);
    }

    /** `addResourceGain`: a gain is booked as is. */
    method AddResourceGain(amount: real, resourceType: string, time: int)
      requires Valid()
      modifies mem
      ensures Valid()
      ensures Record() == StatChange(old(Record()), amount, resourceType, time)
      ensures mem.operations.value == old(mem.operations.value)[name := Record()]
    {
      RecordStatChange(amount, resourceType, time);
    }
  }

  /** The record the constructor leaves under `name`, given the memory it found. */
  function Created(operations: Option<map<string, OpRecord>>, name: string, time: int): (r: OpRecord)
    ensures r.opType == Some("default") && r.lastActive == Some(time) && r.stats.Some?
    ensures operations.Some? && name in operations.value ==>
              var prior := operations.value[name];
              r.roomName == prior.roomName && r.currentTick == prior.currentTick &&
              r.statTicks == prior.statTicks && r.shouldTerminate == prior.shouldTerminate &&
              (prior.stats.Some? ==> r.stats == prior.stats)
    ensures !(operations.Some? && name in operations.value) ==>
              r == OpRecord(Some("default"), Some(time), None, Some(map[]), None, None, None)
  {
    var ops := if operations.Some? then operations.value else map[];
    var record := (if name in ops then ops[name] else EmptyRecord).(opType := Some("default"), lastActive := Some(time));
    if record.stats.None? then record.(stats := Some(map[])) else record
  }
}
