/**
 * The logistics network of a colony: a per-tick registry of input requests
 * (positive amounts, resources to deliver) and output requests (negative
 * amounts, resources to collect), the predictions it makes about each
 * transporter (when it is next free, what it will carry, what it will find
 * at a target), the candidate routes for serving a request (straight there,
 * or through one buffer), the rate at which each route moves resources, and
 * the preference lists handed to a stable matcher.
 *
 * Game objects are records; a transporter creep is a `Zerg` object whose
 * `carry` the prediction changes in place.  The range between positions, the
 * path distance and the matcher are functions supplied with the network.
 */
module Logistics {
  import opened Common

  /** `LogisticsNetwork.settings.rangeToPathHeuristic`. */
  const RANGE_TO_PATH_HEURISTIC: real := 1.1

  const ENERGY: string := "energy"
  const GHODIUM: string := "G"
  const POWER: string := "power"
  const TRANSPORT_ROLE: string := "transport"

  datatype Pos = Pos(roomName: string, x: int, y: int)

  /** A store (or a creep's carry): resource type to amount, in key order. */
  type Store = Dict<real>

  datatype ResourceType = All | Res(name: string)

  /**
   * What a logistics target is, as far as the type guards of the network can
   * tell.  Labs, nukers and power spawns have `energy` and `energyCapacity`,
   * so the energy-structure guard accepts them too.
   */
  datatype TargetKind =
    | StoreStructure(store: Store, storeCapacity: real)
    | EnergyStructure(energy: real, energyCapacity: real)
    | Lab(energy: real, energyCapacity: real, mineralType: Option<string>,
          mineralAmount: real, mineralCapacity: real)
    | Nuker(energy: real, energyCapacity: real, ghodium: real, ghodiumCapacity: real)
    | PowerSpawn(energy: real, energyCapacity: real, power: real, powerCapacity: real)
    | Tombstone(store: Store)
    | Dropped(resourceType: string, amount: real)

  predicate IsEnergyStructure(k: TargetKind)
  {
    k.EnergyStructure? || k.Lab? || k.Nuker? || k.PowerSpawn?
  }

  /** Store structures and tombstones: the targets whose whole `store` can be emptied. */
  predicate HasStore(k: TargetKind)
  {
    k.StoreStructure? || k.Tombstone?
  }

  /** Non-negative contents that fit their capacities. */
  predicate WellFormed(k: TargetKind)
  {
    match k
    case StoreStructure(store, cap) => NonNegative(store) && SumValues(store) <= cap
    case EnergyStructure(e, c) => 0.0 <= e <= c
    case Lab(e, c, _, ma, mc) => 0.0 <= e <= c && 0.0 <= ma <= mc
    case Nuker(e, c, g, gc) => 0.0 <= e <= c && 0.0 <= g <= gc
    case PowerSpawn(e, c, p, pc) => 0.0 <= e <= c && 0.0 <= p <= pc
    case Tombstone(store) => NonNegative(store)
    case Dropped(_, a) => a >= 0.0
  }

  datatype Target = Target(ref: string, pos: Pos, targetedBy: seq<string>, kind: TargetKind)

  /** A registered request: `amount > 0` asks for delivery, `amount < 0` for collection. */
  datatype Request = Request(id: string, target: Target, amount: real, dAmountdt: real,
                             resourceType: ResourceType, multiplier: real)

  /** A transporter's current task: its ETA (0 or absent when unknown), the positions it visits, its target's ref. */
  datatype Task = Task(eta: Option<int>, manifest: seq<Pos>, target: Option<string>)

  /** A storage or terminal the transporter may visit on the way. */
  datatype Buffer = Buffer(ref: string, pos: Pos, store: Store, storeCapacity: real)

  /** One way to serve a request: amount moved, ticks taken, first stop. */
  datatype Choice = Choice(dQ: real, dt: real, targetRef: string)

  // ---------------------------------------------------------------------------
  // How much a target can take or give
  // ---------------------------------------------------------------------------

  /** The capacity of the slot of `k` that holds `t`, if it has one. */
  function SlotCapacity(k: TargetKind, t: string): Option<real>
  {
    match k
    case StoreStructure(_, cap) => Some(cap)
    case EnergyStructure(_, c) => if t == ENERGY then Some(c) else None
    case Lab(_, c, mt, _, mc) =>
      if t == ENERGY then Some(c) else if mt == Some(t) then Some(mc) else None
    case Nuker(_, c, _, gc) =>
      if t == ENERGY then Some(c) else if t == GHODIUM then Some(gc) else None
    case PowerSpawn(_, c, _, pc) =>
      if t == ENERGY then Some(c) else if t == POWER then Some(pc) else None
    case Tombstone(_) => None
    case Dropped(_, _) => None
  }

  /** `getOutputAmount`: how much of `rt` can be withdrawn from the target. */
  function OutputAmount(k: TargetKind, rt: ResourceType): (r: real)
    ensures rt.All? && !HasStore(k) ==> r == 0.0
    ensures k.Dropped? && rt.Res? ==> r == k.amount
    ensures WellFormed(k) ==> r >= 0.0
    ensures WellFormed(k) && HasStore(k) ==> r <= SumValues(k.store)
  {
    match rt
    case All =>
      (match k
       case StoreStructure(store, _) => SumNonNegative(store); SumValues(store)
       case Tombstone(store) => SumNonNegative(store); SumValues(store)
       case _ => 0.0)
    case Res(t) =>
      match k
      case Dropped(_, a) => a
      case Tombstone(store) => AmountAtMostSum(store, t); AmountOf(store, t)
      case StoreStructure(store, _) => AmountAtMostSum(store, t); AmountOf(store, t)
      case EnergyStructure(e, _) => if t == ENERGY then e else 0.0
      case Lab(e, _, mt, ma, _) =>
        if t == ENERGY then e else if mt == Some(t) then ma else 0.0
      case Nuker(e, _, g, _) => if t == ENERGY then e else if t == GHODIUM then g else 0.0
      case PowerSpawn(e, _, p, _) => if t == ENERGY then e else if t == POWER then p else 0.0
  }

  /**
   * `getInputAmount`: free room for `t`.  It is the slot's capacity less what
   * could be withdrawn from it (the whole store for a store structure), and 0
   * for tombstones, dropped resources and slots the target does not have.
   */
  function InputAmount(k: TargetKind, t: string): (r: real)
    ensures k.StoreStructure? ==> r == k.storeCapacity - OutputAmount(k, All)
    ensures !k.StoreStructure? && SlotCapacity(k, t).Some? ==>
              r == SlotCapacity(k, t).value - OutputAmount(k, Res(t))
    ensures SlotCapacity(k, t).None? ==> r == 0.0
    ensures WellFormed(k) ==> r >= 0.0
  {
    match k
    case Dropped(_, _) => 0.0
    case Tombstone(_) => 0.0
    case StoreStructure(store, cap) => cap - SumValues(store)
    case EnergyStructure(e, c) => if t == ENERGY then c - e else 0.0
    case Lab(e, c, mt, ma, mc) =>
      if t == ENERGY then c - e else if mt == Some(t) then mc - ma else 0.0
    case Nuker(e, c, g, gc) =>
      if t == ENERGY then c - e else if t == GHODIUM then gc - g else 0.0
    case PowerSpawn(e, c, p, pc) =>
      if t == ENERGY then c - e else if t == POWER then pc - p else 0.0
  }

  /** The type an output request is registered with: `'all'` on a store holding only energy becomes energy. */
  function OutputType(k: TargetKind, rt: ResourceType): (r: ResourceType)
    ensures r != rt ==> rt.All? && r == Res(ENERGY) && HasStore(k)
    ensures HasStore(k) && rt.All? && Lookup(k.store, ENERGY) == Some(SumValues(k.store)) ==> r == Res(ENERGY)
  {
    if rt.All? && HasStore(k) && Lookup(k.store, ENERGY) == Some(SumValues(k.store)) then Res(ENERGY) else rt
  }

  // ---------------------------------------------------------------------------
  // When a transporter is next free
  // ---------------------------------------------------------------------------

  /** The ticks to walk `from` through every stop, one rounded-up heuristic leg each, and where that ends. */
  function Legs(from: Pos, stops: seq<Pos>, range: (Pos, Pos) -> nat): (r: (int, Pos))
    ensures r.0 >= 0
    ensures r.1 == if stops == [] then from else stops[|stops| - 1]
    decreases |stops|
  {
    if stops == [] then (0, from)
    else
      var rest := Legs(stops[0], stops[1..], range);
      (Ceil(range(from, stops[0]) as real * RANGE_TO_PATH_HEURISTIC) + rest.0, rest.1)
  }

  /** The legs from `from` over `stops[i..]`: the first leg, then the legs from `stops[i]` on. */
  lemma LegsStep(from: Pos, stops: seq<Pos>, i: nat, range: (Pos, Pos) -> nat)
    requires i < |stops|
    ensures Legs(from, stops[i..], range) ==
            (Ceil(range(from, stops[i]) as real * RANGE_TO_PATH_HEURISTIC) + Legs(stops[i], stops[i + 1..], range).0,
             Legs(stops[i], stops[i + 1..], range).1)
  {
    assert stops[i..][1..] == stops[i + 1..];
  }

  /** The loop of `computeNextAvailability`: the legs walked one by one, each rounded up on its own. */
  method WalkLegs(from: Pos, stops: seq<Pos>, range: (Pos, Pos) -> nat) returns (r: (int, Pos))
    ensures r == Legs(from, stops, range)
  {
    var approximateDistance := 0;
    var pos := from;
    var i := 0;
    while i < |stops|
      invariant 0 <= i <= |stops|
      invariant approximateDistance + Legs(pos, stops[i..], range).0 == Legs(from, stops, range).0
      invariant Legs(pos, stops[i..], range).1 == Legs(from, stops, range).1
    {
      LegsStep(pos, stops, i, range);
      approximateDistance := approximateDistance + Ceil(range(pos, stops[i]) as real * RANGE_TO_PATH_HEURISTIC);
      pos := stops[i];
      i := i + 1;
    }
    r := (approximateDistance, pos);
  }

  /** JavaScript truthiness of a task ETA. */
  predicate EtaKnown(eta: Option<int>)
  {
    eta.Some? && eta.value != 0
  }

  /** `manifest.slice(1)`. */
  function DropFirst(s: seq<Pos>): seq<Pos>
  {
    if s == [] then [] else s[1..]
  }

  /**
   * `computeNextAvailability`: an idle transporter is free now where it stands.
   * With a known ETA the first stop takes the ETA and the legs run from the
   * transporter's own position through the remaining stops; otherwise every
   * stop is walked from its position.
   */
  function Availability(pos: Pos, task: Option<Task>, range: (Pos, Pos) -> nat): (r: (int, Pos))
    ensures task.None? ==> r == (0, pos)
    ensures task.Some? && EtaKnown(task.value.eta) ==> r.0 >= task.value.eta.value
    ensures task.Some? && !EtaKnown(task.value.eta) ==> r.0 >= 0
    ensures task.Some? && (EtaKnown(task.value.eta) ==> |task.value.manifest| >= 2) && task.value.manifest != [] ==>
              r.1 == task.value.manifest[|task.value.manifest| - 1]
    ensures task.Some? && (task.value.manifest == [] || (EtaKnown(task.value.eta) && |task.value.manifest| == 1)) ==>
              r.1 == pos
  {
    match task
    case None => (0, pos)
    case Some(tk) =>
      if EtaKnown(tk.eta) then
        var legs := Legs(pos, DropFirst(tk.manifest), range);
        (tk.eta.value + legs.0, legs.1)
      else
        Legs(pos, tk.manifest, range)
  }

  /** Ticks until the transporter reaches `target`: its busy time plus the heuristic range from where it will be. */
  function ArrivalTime(avail: (int, Pos), target: Pos, range: (Pos, Pos) -> nat): real
  {
    avail.0 as real + range(avail.1, target) as real * RANGE_TO_PATH_HEURISTIC
  }

  /** A creep: everything is fixed for the tick except its carry, which the prediction changes in place. */
  class Zerg {
    const name: string
    const roleName: string
    const pos: Pos
    const carryCapacity: real
    const task: Option<Task>
    var carry: Store

    constructor(name: string, roleName: string, pos: Pos, carryCapacity: real, task: Option<Task>, carry: Store)
      ensures this.name == name && this.roleName == roleName && this.pos == pos
      ensures this.carryCapacity == carryCapacity && this.task == task && this.carry == carry
    {
      this.name := name;
      this.roleName := roleName;
      this.pos := pos;
      this.carryCapacity := carryCapacity;
      this.task := task;
      this.carry := carry;
    }
  }

  /** The options object of a request call; the calls fill in and overwrite its fields. */
  class RequestOptions {
    var amount: Option<real>
    var dAmountdt: Option<real>
    var resourceType: Option<ResourceType>
    var multiplier: Option<real>

    constructor(amount: Option<real>, dAmountdt: Option<real>, resourceType: Option<ResourceType>, multiplier: Option<real>)
      ensures this.amount == amount && this.dAmountdt == dAmountdt
      ensures this.resourceType == resourceType && this.multiplier == multiplier
    {
      this.amount := amount;
      this.dAmountdt := dAmountdt;
      this.resourceType := resourceType;
      this.multiplier := multiplier;
    }

    /** `_.defaults(opts, {resourceType: energy, multiplier: 1, dAmountdt: 0})`: only absent fields are filled. */
    method FillDefaults()
      modifies this
      ensures resourceType == Some(Defaulted(old(resourceType), Res(ENERGY)))
      ensures multiplier == Some(Defaulted(old(multiplier), 1.0))
      ensures dAmountdt == Some(Defaulted(old(dAmountdt), 0.0))
      ensures amount == old(amount)
    {
      resourceType := Some(Defaulted(resourceType, Res(ENERGY)));
      multiplier := Some(Defaulted(multiplier, 1.0));
      dAmountdt := Some(Defaulted(dAmountdt, 0.0));
    }
  }

  /** The value of an optional field, or the default when it is absent. */
  function Defaulted<T>(o: Option<T>, d: T): T
  {
    if o.Some? then o.value else d
  }

  // ---------------------------------------------------------------------------
  // What a transporter will find at a target
  // ---------------------------------------------------------------------------

  /** Amount of `rt` the other transporters heading for the target already carry. */
  function Influx(others: seq<Zerg>, rt: ResourceType): real
    reads others
  {
    if others == [] then 0.0
    else (if rt.Res? then AmountOf(others[0].carry, rt.name) else 0.0) + Influx(others[1..], rt)
  }

  /** Free carry capacity of the other transporters heading for the target. */
  function Outflux(others: seq<Zerg>): real
    reads others
  {
    if others == [] then 0.0
    else others[0].carryCapacity - SumValues(others[0].carry) + Outflux(others[1..])
  }

  /**
   * `predictedRequestAmount` once the arrival time and the other transporters'
   * loads are known.  An input request grows by its rate, is capped at the
   * target's capacity and loses what others bring, never going below 0.  An
   * output request is bounded by the store (at `-storeCapacity`) but for an
   * energy structure by `Math.min` (so at most `-energyCapacity`), then gains
   * the others' free room, never going above 0.
   */
  function PredictedAmount(req: Request, eta: real, influx: real, outflux: real): (r: real)
    ensures req.amount > 0.0 ==> r >= 0.0
    ensures req.amount > 0.0 && req.target.kind.StoreStructure? && influx >= 0.0 && req.target.kind.storeCapacity >= 0.0 ==>
              r <= req.target.kind.storeCapacity
    ensures req.amount > 0.0 && IsEnergyStructure(req.target.kind) && influx >= 0.0 && req.target.kind.energyCapacity >= 0.0 ==>
              r <= req.target.kind.energyCapacity
    ensures req.amount <= 0.0 ==> r <= 0.0
    ensures req.amount <= 0.0 && req.target.kind.StoreStructure? && outflux >= 0.0 && req.target.kind.storeCapacity >= 0.0 ==>
              r >= -req.target.kind.storeCapacity
    ensures req.amount <= 0.0 && IsEnergyStructure(req.target.kind) ==>
              r <= outflux - req.target.kind.energyCapacity
  {
    var predicted := req.amount + req.dAmountdt * eta;
    var k := req.target.kind;
    if req.amount > 0.0 then
      var capped :=
        if k.StoreStructure? then Min(predicted, k.storeCapacity)
        else if IsEnergyStructure(k) then Min(predicted, k.energyCapacity)
        else predicted;
      Max(capped - influx, 0.0)
    else
      var capped :=
        if k.StoreStructure? then Max(predicted, -k.storeCapacity)
        else if IsEnergyStructure(k) then Min(predicted, -k.energyCapacity)
        else predicted;
      Min(capped + outflux, 0.0)
  }

  /** An input request never predicts more than its own growth allows: others' loads only lower it. */
  lemma PredictedInputAtMostGrowth(req: Request, eta: real, influx: real, outflux: real)
    requires req.amount > 0.0 && influx >= 0.0
    ensures PredictedAmount(req, eta, influx, outflux) <= Max(req.amount + req.dAmountdt * eta, 0.0)
  {
  }

  // ---------------------------------------------------------------------------
  // What a transporter will carry after its task
  // ---------------------------------------------------------------------------

  /** An `'all'` request on a target without a store: the prediction gives `{energy: 0}`. */
  predicate CarryTypeError(req: Request)
  {
    req.resourceType.All? && !HasStore(req.target.kind)
  }

  /**
   * One `carry[r]` update: a truthy amount moves by `delta`, an absent or zero
   * one is set to `amount`; either way the result is clamped to `[0, room]`.
   */
  function Bump(carry: Store, r: string, delta: real, amount: real, room: real): Store
  {
    var v := Lookup(carry, r);
    if Truthy(v) then Put(carry, r, Clamp(v.value + delta, 0.0, room))
    else Put(carry, r, Clamp(amount, 0.0, room))
  }

  /** The share of `r` in the store (0 for an empty store). */
  function Fraction(store: Store, r: string): real
  {
    var total := SumValues(store);
    if total == 0.0 then 0.0 else AmountOf(store, r) / total
  }

  /** The `'all'` prediction: each resource type of the store in turn, weighted by its share. */
  function SpreadAll(carry: Store, keys: seq<string>, share: string -> real, amount: real, room: real): Store
    decreases |keys|
  {
    if keys == [] then carry
    else
      var last := keys[|keys| - 1];
      Bump(SpreadAll(carry, keys[..|keys| - 1], share, amount, room), last, share(last), amount, room)
  }

  /** `resourceAmount * resourceFraction` for each resource type of the store. */
  function ShareOf(store: Store, amount: real): string -> real
  {
    r => amount * Fraction(store, r)
  }

  /** The carry after serving `req`, moving `amount` with `room` free capacity at the start. */
  function PredictCarry(carry: Store, req: Request, amount: real, room: real): Store
    requires !CarryTypeError(req)
  {
    match req.resourceType
    case All => SpreadAll(carry, KeysOf(req.target.kind.store), ShareOf(req.target.kind.store, amount), amount, room)
    case Res(t) => Bump(carry, t, amount, amount, room)
  }

  /** The resource types the prediction writes. */
  function Touched(req: Request): set<string>
    requires !CarryTypeError(req)
  {
    match req.resourceType
    case All => KeySet(req.target.kind.store)
    case Res(t) => {t}
  }

  lemma BumpFacts(carry: Store, r: string, delta: real, amount: real, room: real)
    requires room >= 0.0
    ensures Lookup(Bump(carry, r, delta, amount, room), r).Some?
    ensures 0.0 <= Lookup(Bump(carry, r, delta, amount, room), r).value <= room
    ensures forall k :: k != r ==> Lookup(Bump(carry, r, delta, amount, room), k) == Lookup(carry, k)
  {
    var v := Lookup(carry, r);
    var x := if Truthy(v) then Clamp(v.value + delta, 0.0, room) else Clamp(amount, 0.0, room);
    assert Bump(carry, r, delta, amount, room) == Put(carry, r, x);
    forall k ensures Lookup(Put(carry, r, x), k) == if k == r then Some(x) else Lookup(carry, k) {
      LookupPut(carry, r, x, k);
    }
  }

  lemma {:induction false} SpreadAllFacts(carry: Store, keys: seq<string>, share: string -> real, amount: real, room: real)
    requires room >= 0.0
    ensures forall k :: k in keys ==>
              Lookup(SpreadAll(carry, keys, share, amount, room), k).Some? &&
              0.0 <= Lookup(SpreadAll(carry, keys, share, amount, room), k).value <= room
    ensures forall k :: k !in keys ==>
              Lookup(SpreadAll(carry, keys, share, amount, room), k) == Lookup(carry, k)
    decreases |keys|
  {
    if keys != [] {
      var init := keys[..|keys| - 1];
      var last := keys[|keys| - 1];
      var c0 := SpreadAll(carry, init, share, amount, room);
      SpreadAllFacts(carry, init, share, amount, room);
      BumpFacts(c0, last, share(last), amount, room);
      assert keys == init + [last];
    }
  }

  /**
   * The carry prediction keeps every resource type it writes within
   * `[0, room]` and leaves every other type exactly as it was.
   */
  lemma PredictCarryFacts(carry: Store, req: Request, amount: real, room: real)
    requires !CarryTypeError(req) && room >= 0.0
    ensures forall k :: k in Touched(req) ==>
              Lookup(PredictCarry(carry, req, amount, room), k).Some? &&
              0.0 <= Lookup(PredictCarry(carry, req, amount, room), k).value <= room
    ensures forall k :: k !in Touched(req) ==>
              Lookup(PredictCarry(carry, req, amount, room), k) == Lookup(carry, k)
  {
    match req.resourceType
    case All =>
      var store := req.target.kind.store;
      SpreadAllFacts(carry, KeysOf(store), ShareOf(store, amount), amount, room);
      forall k ensures k in KeysOf(store) <==> k in KeySet(store) {
        if k in KeySet(store) {
          var i :| 0 <= i < |store| && store[i].key == k;
          assert KeysOf(store)[i] == k;
        }
      }
    case Res(t) =>
      BumpFacts(carry, t, amount, amount, room);
  }

  // ---------------------------------------------------------------------------
  // The routes for serving a request, and their rates
  // ---------------------------------------------------------------------------

  /** A stop at buffer `b` first, then on to the target. */
  function Detour(b: Buffer, dQ: real, avail: (int, Pos), target: Pos,
                  range: (Pos, Pos) -> nat, pathDistance: (Pos, Pos) -> nat): Choice
  {
    Choice(dQ, range(avail.1, b.pos) as real * RANGE_TO_PATH_HEURISTIC + pathDistance(b.pos, target) as real + avail.0 as real,
           b.ref)
  }

  /** Picking `t` up from each buffer before delivering. */
  function InputDetours(buffers: seq<Buffer>, amount: real, capacity: real, t: string, avail: (int, Pos), target: Pos,
                        range: (Pos, Pos) -> nat, pathDistance: (Pos, Pos) -> nat): seq<Choice>
  {
    seq(|buffers|, i requires 0 <= i < |buffers| =>
      Detour(buffers[i], Min(Min(amount, capacity), AmountOf(buffers[i].store, t)), avail, target, range, pathDistance))
  }

  /** Dropping the load off at each buffer before collecting. */
  function OutputDetours(buffers: seq<Buffer>, amount: real, capacity: real, avail: (int, Pos), target: Pos,
                         range: (Pos, Pos) -> nat, pathDistance: (Pos, Pos) -> nat): seq<Choice>
  {
    seq(|buffers|, i requires 0 <= i < |buffers| =>
      Detour(buffers[i], Min(Min(-amount, capacity), buffers[i].storeCapacity - SumValues(buffers[i].store)),
             avail, target, range, pathDistance))
  }

  /**
   * The early return of `bufferChoices`: for an input, the carried amount
   * already exceeds what is needed or the transporter is full; for an output,
   * the free room covers the amount or the transporter is empty.
   */
  predicate DirectSuffices(amount: real, carry: Store, capacity: real, req: Request)
  {
    if amount > 0.0 then
      req.resourceType.Res? && (AmountOf(carry, req.resourceType.name) > amount || SumValues(carry) == capacity)
    else
      capacity - SumValues(carry) >= -amount || capacity - SumValues(carry) == capacity
  }

  /**
   * `bufferChoices` once the predicted amount, the availability and the carry
   * to plan with are known: nothing for a zero amount or an input of `'all'`,
   * otherwise the direct route first and then one detour per buffer unless
   * the direct route suffices.
   */
  function Choices(amount: real, avail: (int, Pos), carry: Store, capacity: real, req: Request, buffers: seq<Buffer>,
                   range: (Pos, Pos) -> nat, pathDistance: (Pos, Pos) -> nat): (r: seq<Choice>)
    ensures r == [] <==> amount == 0.0 || (amount > 0.0 && req.resourceType.All?)
    ensures r != [] ==> r[0].targetRef == req.target.ref && r[0].dt == ArrivalTime(avail, req.target.pos, range)
    ensures r != [] ==> |r| == if DirectSuffices(amount, carry, capacity, req) then 1 else 1 + |buffers|
    ensures r != [] && amount > 0.0 ==>
              r[0].dQ <= amount && r[0].dQ <= AmountOf(carry, req.resourceType.name) &&
              (r[0].dQ == amount || r[0].dQ == AmountOf(carry, req.resourceType.name))
    ensures r != [] && amount < 0.0 ==>
              r[0].dQ <= -amount && r[0].dQ <= capacity - SumValues(carry) &&
              (r[0].dQ == -amount || r[0].dQ == capacity - SumValues(carry))
    ensures forall i :: 1 <= i < |r| ==>
              r[i].targetRef == buffers[i - 1].ref && r[i].dQ <= capacity && (r[i].dQ <= amount || r[i].dQ <= -amount)
  {
    var toTarget := ArrivalTime(avail, req.target.pos, range);
    if amount > 0.0 then
      if req.resourceType.All? then []
      else
        var t := req.resourceType.name;
        var direct := Choice(Min(amount, AmountOf(carry, t)), toTarget, req.target.ref);
        if DirectSuffices(amount, carry, capacity, req) then [direct]
        else [direct] + InputDetours(buffers, amount, capacity, t, avail, req.target.pos, range, pathDistance)
    else if amount < 0.0 then
      var direct := Choice(Min(-amount, capacity - SumValues(carry)), toTarget, req.target.ref);
      if DirectSuffices(amount, carry, capacity, req) then [direct]
      else [direct] + OutputDetours(buffers, amount, capacity, avail, req.target.pos, range, pathDistance)
    else
      []
  }

  /** The rate of one route: `multiplier * dQ / max(dt, 0.1)`. */
  function Rate(multiplier: real, c: Choice): real
  {
    multiplier * c.dQ / Max(c.dt, 0.1)
  }

  /** `_.max` of the route rates; absent (`undefined`) when there is no route. */
  function BestRate(multiplier: real, cs: seq<Choice>): (r: Option<real>)
    ensures r.None? <==> cs == []
    ensures r.Some? ==> forall c :: c in cs ==> Rate(multiplier, c) <= r.value
    ensures r.Some? ==> exists c :: c in cs && Rate(multiplier, c) == r.value
  {
    if cs == [] then None
    else
      match BestRate(multiplier, cs[1..])
      case None => Some(Rate(multiplier, cs[0]))
      case Some(m) =>
        assert forall c :: c in cs ==> c == cs[0] || c in cs[1..];
        Some(Max(Rate(multiplier, cs[0]), m))
  }

  // ---------------------------------------------------------------------------
  // Stable ordering by rate, as `_.sortBy(xs, x => -rate(x))` gives it
  // ---------------------------------------------------------------------------

  /**
   * Position `a` comes before position `b`: a higher rate first, an absent
   * rate (`NaN` as a sort key) last, and equal rates in their original order.
   */
  predicate Before(keys: seq<Option<real>>, a: nat, b: nat)
    requires a < |keys| && b < |keys|
  {
    match keys[a]
    case None => keys[b].None? && a < b
    case Some(u) => keys[b].None? || u > keys[b].value || (u == keys[b].value && a < b)
  }

  predicate InRange(keys: seq<Option<real>>, s: seq<nat>)
  {
    forall i :: 0 <= i < |s| ==> s[i] < |keys|
  }

  predicate SortedByRate(keys: seq<Option<real>>, s: seq<nat>)
    requires InRange(keys, s)
  {
    forall i, j :: 0 <= i < j < |s| ==> Before(keys, s[i], s[j])
  }

  lemma BeforeTotal(keys: seq<Option<real>>, a: nat, b: nat)
    requires a < |keys| && b < |keys| && a != b
    ensures Before(keys, a, b) || Before(keys, b, a)
  {
  }

  lemma BeforeTransitive(keys: seq<Option<real>>, a: nat, b: nat, c: nat)
    requires a < |keys| && b < |keys| && c < |keys|
    requires Before(keys, a, b) && Before(keys, b, c)
    ensures Before(keys, a, c)
  {
  }

  /** Where `k` goes: before the first element it precedes. */
  function InsertPos(keys: seq<Option<real>>, s: seq<nat>, k: nat): (p: nat)
    requires k < |keys| && InRange(keys, s)
    ensures p <= |s|
    ensures forall j :: 0 <= j < p ==> !Before(keys, k, s[j])
    ensures p < |s| ==> Before(keys, k, s[p])
  {
    if s == [] then 0
    else if Before(keys, k, s[0]) then 0
    else 1 + InsertPos(keys, s[1..], k)
  }

  function InsertByRate(keys: seq<Option<real>>, s: seq<nat>, k: nat): (r: seq<nat>)
    requires k < |keys| && InRange(keys, s) && SortedByRate(keys, s) && k !in s
    ensures |r| == |s| + 1 && InRange(keys, r) && SortedByRate(keys, r)
    ensures forall x: nat :: x in r <==> x in s || x == k
    ensures exists p :: 0 <= p <= |s| && r == s[..p] + [k] + s[p..]
  {
    var p := InsertPos(keys, s, k);
    var r := s[..p] + [k] + s[p..];
    InsertSorted(keys, s, k, p, r);
    assert forall x :: x in r <==> x in s[..p] || x == k || x in s[p..];
    assert s == s[..p] + s[p..];
    r
  }

  /** The insertion happens at `InsertPos`. */
  lemma InsertByRateAt(keys: seq<Option<real>>, s: seq<nat>, k: nat)
    requires k < |keys| && InRange(keys, s) && SortedByRate(keys, s) && k !in s
    ensures InsertByRate(keys, s, k) == s[..InsertPos(keys, s, k)] + [k] + s[InsertPos(keys, s, k)..]
  {
  }

  lemma InsertSorted(keys: seq<Option<real>>, s: seq<nat>, k: nat, p: nat, r: seq<nat>)
    requires k < |keys| && InRange(keys, s) && SortedByRate(keys, s) && k !in s
    requires p == InsertPos(keys, s, k) && r == s[..p] + [k] + s[p..]
    ensures InRange(keys, r) && SortedByRate(keys, r)
  {
    assert forall i :: 0 <= i < |r| ==> r[i] == if i < p then s[i] else if i == p then k else s[i - 1];
    forall i, j | 0 <= i < j < |r| ensures Before(keys, r[i], r[j]) {
      if j < p || i > p {
      } else if j == p {
        assert !Before(keys, k, s[i]) && s[i] != k;
        BeforeTotal(keys, k, s[i]);
      } else if i == p {
        if j - 1 > p {
          BeforeTransitive(keys, k, s[p], s[j - 1]);
        }
      } else {
        assert i < p < j;
      }
    }
  }

  function SortFirst(keys: seq<Option<real>>, n: nat): (r: seq<nat>)
    requires n <= |keys|
    ensures |r| == n && InRange(keys, r) && SortedByRate(keys, r)
    ensures forall x: nat :: x in r <==> x < n
  {
    if n == 0 then [] else InsertByRate(keys, SortFirst(keys, n - 1), n - 1)
  }

  /**
   * The positions `0 .. |keys| - 1` listed once each, by non-increasing rate,
   * absent rates last, ties in their original order.
   */
  function StableOrder(keys: seq<Option<real>>): (r: seq<nat>)
    ensures |r| == |keys| && InRange(keys, r) && SortedByRate(keys, r)
    ensures forall x: nat :: x in r <==> x < |keys|
  {
    SortFirst(keys, |keys|)
  }

  /** The items at the given positions, in that order. */
  function Arrange<T>(items: seq<T>, order: seq<nat>): (r: seq<T>)
    requires forall i :: 0 <= i < |order| ==> order[i] < |items|
    ensures |r| == |order|
    ensures forall i :: 0 <= i < |order| ==> r[i] == items[order[i]]
  {
    seq(|order|, i requires 0 <= i < |order| => items[order[i]])
  }

  lemma ArrangeConcat<T>(items: seq<T>, a: seq<nat>, b: seq<nat>)
    requires forall i :: 0 <= i < |a| ==> a[i] < |items|
    requires forall i :: 0 <= i < |b| ==> b[i] < |items|
    ensures Arrange(items, a + b) == Arrange(items, a) + Arrange(items, b)
  {
  }

  lemma ArrangeInsert<T>(items: seq<T>, s: seq<nat>, p: nat, k: nat)
    requires p <= |s| && k < |items| && forall i :: 0 <= i < |s| ==> s[i] < |items|
    ensures multiset(Arrange(items, s[..p] + [k] + s[p..])) == multiset(Arrange(items, s)) + multiset{items[k]}
  {
    var a := Arrange(items, s[..p]);
    var b := Arrange(items, s[p..]);
    assert Arrange(items, s[..p] + [k] + s[p..]) == a + [items[k]] + b by {
      ArrangeConcat(items, s[..p] + [k], s[p..]);
      ArrangeConcat(items, s[..p], [k]);
    }
    assert Arrange(items, s) == a + b by {
      assert s == s[..p] + s[p..];
      ArrangeConcat(items, s[..p], s[p..]);
    }
  }

  lemma {:induction false} SortFirstPermutes<T>(items: seq<T>, keys: seq<Option<real>>, n: nat)
    requires |keys| == |items| && n <= |keys|
    ensures multiset(Arrange(items, SortFirst(keys, n))) == multiset(items[..n])
  {
    if n > 0 {
      SortFirstPermutes(items, keys, n - 1);
      SortFirstStep(items, keys, n);
    }
  }

  lemma SortFirstStep<T>(items: seq<T>, keys: seq<Option<real>>, n: nat)
    requires |keys| == |items| && 0 < n <= |keys|
    requires multiset(Arrange(items, SortFirst(keys, n - 1))) == multiset(items[..n - 1])
    ensures multiset(Arrange(items, SortFirst(keys, n))) == multiset(items[..n])
  {
    var s := SortFirst(keys, n - 1);
    InsertByRateAt(keys, s, n - 1);
    PermutationStep(items, s, InsertPos(keys, s, n - 1), n);
  }

  lemma TakeOneMore<T>(items: seq<T>, n: nat)
    requires 0 < n <= |items|
    ensures multiset(items[..n]) == multiset(items[..n - 1]) + multiset{items[n - 1]}
  {
    assert items[..n] == items[..n - 1] + [items[n - 1]];
  }

  /** Inserting position `n - 1` into an arrangement of the first `n - 1` items arranges the first `n`. */
  lemma PermutationStep<T>(items: seq<T>, s: seq<nat>, p: nat, n: nat)
    requires 0 < n <= |items| && p <= |s| && forall i :: 0 <= i < |s| ==> s[i] < |items|
    requires multiset(Arrange(items, s)) == multiset(items[..n - 1])
    ensures multiset(Arrange(items, s[..p] + [n - 1] + s[p..])) == multiset(items[..n])
  {
    ArrangeInsert(items, s, p, n - 1);
    TakeOneMore(items, n);
  }

  /** Arranging by the stable order lists every item exactly once. */
  lemma ArrangeIsPermutation<T>(items: seq<T>, keys: seq<Option<real>>)
    requires |keys| == |items|
    ensures multiset(Arrange(items, StableOrder(keys))) == multiset(items)
  {
    SortFirstPermutes(items, keys, |keys|);
    assert items[..|keys|] == items;
  }

  // ---------------------------------------------------------------------------
  // Looking requests up by id
  // ---------------------------------------------------------------------------

  /** `_.find(requests, r => r.id == id)`. */
  function FindById(requests: seq<Request>, id: string): (r: Option<Request>)
    ensures r.Some? ==> r.value in requests && r.value.id == id
    ensures r.None? ==> forall q :: q in requests ==> q.id != id
  {
    if requests == [] then None
    else if requests[0].id == id then Some(requests[0])
    else
      var r := FindById(requests[1..], id);
      assert forall q :: q in requests ==> q == requests[0] || q in requests[1..];
      r
  }

  predicate DistinctIds(requests: seq<Request>)
  {
    forall i, j :: 0 <= i < j < |requests| ==> requests[i].id != requests[j].id
  }

  /** With distinct ids, looking up a request's id finds that very request. */
  lemma {:induction false} FindOwnId(requests: seq<Request>, i: nat)
    requires i < |requests| && DistinctIds(requests)
    ensures FindById(requests, requests[i].id) == Some(requests[i])
  {
    if i > 0 {
      assert requests[0].id != requests[i].id;
      assert DistinctIds(requests[1..]) by {
        forall a, b | 0 <= a < b < |requests[1..]| ensures requests[1..][a].id != requests[1..][b].id {
          assert requests[1..][a] == requests[a + 1] && requests[1..][b] == requests[b + 1];
        }
      }
      FindOwnId(requests[1..], i - 1);
      assert requests[1..][i - 1] == requests[i];
    }
  }

  function IdsOf(requests: seq<Request>): (ids: seq<string>)
    ensures |ids| == |requests| && forall i :: 0 <= i < |requests| ==> ids[i] == requests[i].id
  {
    seq(|requests|, i requires 0 <= i < |requests| => requests[i].id)
  }

  function NamesOf(transporters: seq<Zerg>): (names: seq<string>)
    ensures |names| == |transporters| && forall i :: 0 <= i < |transporters| ==> names[i] == transporters[i].name
  {
    seq(|transporters|, i requires 0 <= i < |transporters| => transporters[i].name)
  }

  predicate DistinctNames(transporters: seq<Zerg>)
  {
    forall i, j :: 0 <= i < j < |transporters| ==> transporters[i].name != transporters[j].name
  }

  /** `_.mapValues(matching, id => _.find(requests, r => r.id == id))`. */
  function Resolve(requests: seq<Request>, m: map<string, string>): (r: map<string, Option<Request>>)
    ensures r.Keys == m.Keys
    ensures forall n :: n in r && r[n].Some? ==> r[n].value in requests && r[n].value.id == m[n]
  {
    map n | n in m :: FindById(requests, m[n])
  }

  /** The names of the transporters. */
  function NameSet(ts: seq<Zerg>): set<string>
  {
    if ts == [] then {} else NameSet(ts[..|ts| - 1]) + {ts[|ts| - 1].name}
  }

  /** The ids of the requests. */
  function IdSet(rs: seq<Request>): set<string>
  {
    if rs == [] then {} else IdSet(rs[..|rs| - 1]) + {rs[|rs| - 1].id}
  }

  /** A preference list for each key, each one an ordering of all of `all`. */
  predicate RanksAll(prefs: map<string, seq<string>>, keys: set<string>, all: seq<string>)
  {
    prefs.Keys == keys && forall k :: k in prefs ==> multiset(prefs[k]) == multiset(all)
  }

  /** One more key with a full ranking keeps every list a full ranking. */
  lemma RanksAllAdd(prefs: map<string, seq<string>>, keys: set<string>, all: seq<string>, k: string, ranking: seq<string>)
    requires RanksAll(prefs, keys, all) && multiset(ranking) == multiset(all)
    ensures RanksAll(prefs[k := ranking], keys + {k}, all)
  {
  }

  lemma NameSetGrow(ts: seq<Zerg>, i: nat)
    requires i < |ts|
    ensures NameSet(ts[..i + 1]) == NameSet(ts[..i]) + {ts[i].name}
  {
    assert ts[..i + 1][..i] == ts[..i];
  }

  lemma IdSetGrow(rs: seq<Request>, i: nat)
    requires i < |rs|
    ensures IdSet(rs[..i + 1]) == IdSet(rs[..i]) + {rs[i].id}
  {
    assert rs[..i + 1][..i] == rs[..i];
  }

  /** A transporter's preference list names every request exactly once. */
  lemma IdsPermuted(requests: seq<Request>, keys: seq<Option<real>>)
    requires |keys| == |requests|
    ensures multiset(IdsOf(Arrange(requests, StableOrder(keys)))) == multiset(IdsOf(requests))
  {
    var order := StableOrder(keys);
    assert IdsOf(Arrange(requests, order)) == Arrange(IdsOf(requests), order);
    ArrangeIsPermutation(IdsOf(requests), keys);
  }

  /** A request's preference list names every transporter exactly once. */
  lemma NamesPermuted(transporters: seq<Zerg>, keys: seq<Option<real>>)
    requires |keys| == |transporters|
    ensures multiset(NamesOf(Arrange(transporters, StableOrder(keys)))) == multiset(NamesOf(transporters))
  {
    var order := StableOrder(keys);
    assert NamesOf(Arrange(transporters, order)) == Arrange(NamesOf(transporters), order);
    ArrangeIsPermutation(NamesOf(transporters), keys);
  }

  /**
   * The route planning of `bufferChoices` once the amount, the availability
   * and the carry are known: the direct route, then a detour per buffer
   * unless the direct route already suffices.
   */
  method PlanRoutes(amount: real, avail: (int, Pos), carry: Store, capacity: real, request: Request, buffers: seq<Buffer>,
                    range: (Pos, Pos) -> nat, pathDistance: (Pos, Pos) -> nat) returns (choices: seq<Choice>)
    ensures choices == Choices(amount, avail, carry, capacity, request, buffers, range, pathDistance)
  {
    var toTarget := ArrivalTime(avail, request.target.pos, range);
    choices := [];
    if amount > 0.0 {
      if request.resourceType.All? {
        return;
      }
      var t := request.resourceType.name;
      var direct := Choice(Min(amount, AmountOf(carry, t)), toTarget, request.target.ref);
      choices := [direct];
      if AmountOf(carry, t) > amount || SumValues(carry) == capacity {
        return;
      }
      var detours := CollectInputDetours(buffers, amount, capacity, t, avail, request.target.pos, range, pathDistance);
      choices := choices + detours;
    } else if amount < 0.0 {
      var remaining := capacity - SumValues(carry);
      var direct := Choice(Min(-amount, remaining), toTarget, request.target.ref);
      choices := [direct];
      if remaining >= -amount || remaining == capacity {
        return;
      }
      var detours := CollectOutputDetours(buffers, amount, capacity, avail, request.target.pos, range, pathDistance);
      choices := choices + detours;
    }
  }

  /** The buffer loop of `bufferChoices` for an input request: a detour to pick `t` up from each buffer. */
  method CollectInputDetours(buffers: seq<Buffer>, amount: real, capacity: real, t: string, avail: (int, Pos), target: Pos,
                             range: (Pos, Pos) -> nat, pathDistance: (Pos, Pos) -> nat) returns (ds: seq<Choice>)
    ensures ds == InputDetours(buffers, amount, capacity, t, avail, target, range, pathDistance)
  {
    ds := [];
    var i := 0;
    while i < |buffers|
      invariant 0 <= i <= |buffers|
      invariant ds == InputDetours(buffers[..i], amount, capacity, t, avail, target, range, pathDistance)
    {
      var b := buffers[i];
      assert buffers[..i + 1] == buffers[..i] + [b];
      ds := ds + [Detour(b, Min(Min(amount, capacity), AmountOf(b.store, t)), avail, target, range, pathDistance)];
      i := i + 1;
    }
    assert buffers[..|buffers|] == buffers;
  }

  /** The buffer loop of `bufferChoices` for an output request: a detour to drop the load off at each buffer. */
  method CollectOutputDetours(buffers: seq<Buffer>, amount: real, capacity: real, avail: (int, Pos), target: Pos,
                              range: (Pos, Pos) -> nat, pathDistance: (Pos, Pos) -> nat) returns (ds: seq<Choice>)
    ensures ds == OutputDetours(buffers, amount, capacity, avail, target, range, pathDistance)
  {
    ds := [];
    var i := 0;
    while i < |buffers|
      invariant 0 <= i <= |buffers|
      invariant ds == OutputDetours(buffers[..i], amount, capacity, avail, target, range, pathDistance)
    {
      var b := buffers[i];
      assert buffers[..i + 1] == buffers[..i] + [b];
      ds := ds + [Detour(b, Min(Min(-amount, capacity), b.storeCapacity - SumValues(b.store)), avail, target, range, pathDistance)];
      i := i + 1;
    }
    assert buffers[..|buffers|] == buffers;
  }

  /** `_.compact([storage, terminal])`. */
  function Compact(storage: Option<Buffer>, terminal: Option<Buffer>): seq<Buffer>
  {
    (if storage.Some? then [storage.value] else []) + (if terminal.Some? then [terminal.value] else [])
  }

  // ---------------------------------------------------------------------------
  // The network
  // ---------------------------------------------------------------------------

  /** The per-tick memo tables: availability and predicted carry by creep name, rates by request id and creep name. */
  datatype Cache = Cache(nextAvailability: map<string, (int, Pos)>,
                         predictedCarry: map<string, Store>,
                         resourceChangeRate: map<string, map<string, Option<real>>>)

  /** The rate memo: rates by request id, then by transporter name. */
  type RateTable = map<string, map<string, Option<real>>>

  /** A rate in the memo; nothing when it is not there. */
  function RateIn(table: RateTable, id: string, name: string): Option<real>
  {
    if id in table && name in table[id] then table[id][name] else None
  }

  /** The memo only fills in: every truthy rate of `before` is in `after` unchanged. */
  ghost predicate RatesKept(before: RateTable, after: RateTable)
  {
    forall id, name :: Truthy(RateIn(before, id, name)) ==> RateIn(after, id, name) == RateIn(before, id, name)
  }

  lemma RatesKeptTrans(a: RateTable, b: RateTable, c: RateTable)
    requires RatesKept(a, b) && RatesKept(b, c)
    ensures RatesKept(a, c)
  {
  }

  /** Filling in one rate that is not truthy keeps every truthy rate and changes no other entry. */
  lemma FillKeepsRates(table: RateTable, id: string, name: string, v: Option<real>)
    requires !Truthy(RateIn(table, id, name))
    ensures var after := table[id := (if id in table then table[id] else map[])[name := v]];
            RatesKept(table, after) && RateIn(after, id, name) == v && OnlyRateChanged(table, after, id, name)
  {
  }

  /** The memoised rates of one transporter for each request, in request order. */
  function RatesFor(table: RateTable, rs: seq<Request>, name: string): (keys: seq<Option<real>>)
    ensures |keys| == |rs| && forall i :: 0 <= i < |rs| ==> keys[i] == RateIn(table, rs[i].id, name)
  {
    seq(|rs|, i requires 0 <= i < |rs| => RateIn(table, rs[i].id, name))
  }

  /** The memoised rates of each transporter for one request, in transporter order. */
  function RatesAcrossIn(table: RateTable, id: string, ts: seq<Zerg>): (keys: seq<Option<real>>)
    ensures |keys| == |ts| && forall i :: 0 <= i < |ts| ==> keys[i] == RateIn(table, id, ts[i].name)
  {
    seq(|ts|, i requires 0 <= i < |ts| => RateIn(table, id, ts[i].name))
  }

  /** A transporter's preference list under a rate memo: the request ids, best rate first, ties in registration order. */
  function TransporterRanking(table: RateTable, requests: seq<Request>, name: string): seq<string>
  {
    IdsOf(Arrange(requests, StableOrder(RatesFor(table, requests, name))))
  }

  /** A request's preference list under a rate memo: the transporter names, best rate first, ties in the given order. */
  function RequestRanking(table: RateTable, transporters: seq<Zerg>, id: string): seq<string>
  {
    NamesOf(Arrange(transporters, StableOrder(RatesAcrossIn(table, id, transporters))))
  }

  /** The first `n` transporters each have their ranking under `table` in `tPrefs`. */
  ghost predicate TransportersRanked(tPrefs: map<string, seq<string>>, requests: seq<Request>, ts: seq<Zerg>, n: nat, table: RateTable)
    requires n <= |ts|
  {
    forall j :: 0 <= j < n ==> ts[j].name in tPrefs && tPrefs[ts[j].name] == TransporterRanking(table, requests, ts[j].name)
  }

  /** The first `n` requests each have their ranking under `table` in `rPrefs`. */
  ghost predicate RequestsRanked(rPrefs: map<string, seq<string>>, rs: seq<Request>, n: nat, transporters: seq<Zerg>, table: RateTable)
    requires n <= |rs|
  {
    forall j :: 0 <= j < n ==> rs[j].id in rPrefs && rPrefs[rs[j].id] == RequestRanking(table, transporters, rs[j].id)
  }

  /** Only the rates of transporter `name` differ. */
  ghost predicate OnlyNameChanged(before: RateTable, after: RateTable, name: string)
  {
    forall id, n :: n != name ==> RateIn(after, id, n) == RateIn(before, id, n)
  }

  /** Only the rates for request `id` differ. */
  ghost predicate OnlyIdChanged(before: RateTable, after: RateTable, id: string)
  {
    forall i, n :: i != id ==> RateIn(after, i, n) == RateIn(before, i, n)
  }

  /** Only the rate of request `id` for transporter `name` differs. */
  ghost predicate OnlyRateChanged(before: RateTable, after: RateTable, id: string, name: string)
  {
    forall i, n :: i != id || n != name ==> RateIn(after, i, n) == RateIn(before, i, n)
  }

  lemma OnlyNameChangedStep(a: RateTable, b: RateTable, c: RateTable, id: string, name: string)
    requires OnlyNameChanged(a, b, name) && OnlyRateChanged(b, c, id, name)
    ensures OnlyNameChanged(a, c, name)
  {
  }

  lemma OnlyIdChangedStep(a: RateTable, b: RateTable, c: RateTable, id: string, name: string)
    requires OnlyIdChanged(a, b, id) && OnlyRateChanged(b, c, id, name)
    ensures OnlyIdChanged(a, c, id)
  {
  }

  /** Ranking one more transporter keeps the earlier rankings, since their rates did not change. */
  lemma TransportersRankedStep(tPrefs: map<string, seq<string>>, requests: seq<Request>, ts: seq<Zerg>, i: nat,
                               before: RateTable, after: RateTable)
    requires i < |ts|
    requires TransportersRanked(tPrefs, requests, ts, i, before)
    requires OnlyNameChanged(before, after, ts[i].name)
    ensures TransportersRanked(tPrefs[ts[i].name := TransporterRanking(after, requests, ts[i].name)], requests, ts, i + 1, after)
  {
    forall j | 0 <= j < i && ts[j].name != ts[i].name
      ensures RatesFor(after, requests, ts[j].name) == RatesFor(before, requests, ts[j].name)
    {
    }
  }

  /** Ranking one more request keeps the earlier rankings, since request ids are distinct. */
  lemma RequestsRankedStep(rPrefs: map<string, seq<string>>, rs: seq<Request>, k: nat, transporters: seq<Zerg>,
                           before: RateTable, after: RateTable)
    requires k < |rs| && DistinctIds(rs)
    requires RequestsRanked(rPrefs, rs, k, transporters, before)
    requires OnlyIdChanged(before, after, rs[k].id)
    ensures RequestsRanked(rPrefs[rs[k].id := RequestRanking(after, transporters, rs[k].id)], rs, k + 1, transporters, after)
  {
    forall j | 0 <= j < k
      ensures RatesAcrossIn(after, rs[j].id, transporters) == RatesAcrossIn(before, rs[j].id, transporters)
    {
      assert rs[j].id != rs[k].id;
    }
  }

  /**
   * A matching is the matcher's answer for the preference lists
   * `stableMatching` builds, with ids resolved back to requests: each
   * transporter ranks every request id, best rate in `tRates` first and ties
   * in registration order; each request ranks every transporter name the
   * same way by the rates in `rRates`.
   */
  ghost predicate MatchesPreferences(result: map<string, Option<Request>>, requests: seq<Request>,
                                     matcher: (map<string, seq<string>>, map<string, seq<string>>) -> map<string, string>,
                                     transporters: seq<Zerg>, tRates: RateTable, rRates: RateTable)
  {
    exists tPrefs: map<string, seq<string>>, rPrefs: map<string, seq<string>> ::
      RanksAll(tPrefs, NameSet(transporters), IdsOf(requests)) &&
      RanksAll(rPrefs, IdSet(requests), NamesOf(transporters)) &&
      TransportersRanked(tPrefs, requests, transporters, |transporters|, tRates) &&
      RequestsRanked(rPrefs, requests, |requests|, transporters, rRates) &&
      result == Resolve(requests, matcher(tPrefs, rPrefs))
  }

  class LogisticsNetwork {
    const colonyRoom: string
    /** Storage and terminal, when the colony has them. */
    const buffers: seq<Buffer>
    /** Every live creep by name. */
    const zerg: map<string, Zerg>
    /** `getMultiRoomRangeTo`. */
    const range: (Pos, Pos) -> nat
    /** `Pathing.distance`. */
    const pathDistance: (Pos, Pos) -> nat
    /** The Gale-Shapley matcher: transporter preferences and request preferences to a matching of names to ids. */
    const matcher: (map<string, seq<string>>, map<string, seq<string>>) -> map<string, string>

    var requests: seq<Request>
    var targetToRequest: map<string, nat>
    var cache: Cache
    var matchingMemo: Option<map<string, Option<Request>>>

    /**
     * Request `i` has id `i`, the target index points at registered requests,
     * and every cached availability is the one its creep's task gives.
     */
    predicate Valid()
      reads this
    {
      (forall ref :: ref in targetToRequest ==> targetToRequest[ref] < |requests|) &&
      (forall i :: 0 <= i < |requests| ==> requests[i].id == NatToString(i)) &&
      (forall n :: n in cache.nextAvailability ==>
         n in zerg && cache.nextAvailability[n] == Availability(zerg[n].pos, zerg[n].task, range))
    }

    /** The creep is the one the game files under its name. */
    predicate Registered(z: Zerg)
    {
      z.name in zerg && zerg[z.name] == z
    }

    constructor(colonyRoom: string, storage: Option<Buffer>, terminal: Option<Buffer>, zerg: map<string, Zerg>,
                range: (Pos, Pos) -> nat, pathDistance: (Pos, Pos) -> nat,
                matcher: (map<string, seq<string>>, map<string, seq<string>>) -> map<string, string>)
      ensures Valid()
      ensures this.colonyRoom == colonyRoom && buffers == Compact(storage, terminal) && this.zerg == zerg
      ensures this.range == range && this.pathDistance == pathDistance && this.matcher == matcher
      ensures requests == [] && targetToRequest == map[] && matchingMemo == None
      ensures cache == Cache(map[], map[], map[])
    {
      this.colonyRoom := colonyRoom;
      this.buffers := Compact(storage, terminal);
      this.zerg := zerg;
      this.range := range;
      this.pathDistance := pathDistance;
      this.matcher := matcher;
      requests := [];
      targetToRequest := map[];
      cache := Cache(map[], map[], map[]);
      matchingMemo := None;
    }

    /** Starts a new tick: no requests, no index, empty caches, no matching. */
    method Refresh()
      requires Valid()
      modifies this
      ensures Valid()
      ensures requests == [] && targetToRequest == map[] && matchingMemo == None
      ensures cache == Cache(map[], map[], map[])
    {
      requests := [];
      targetToRequest := map[];
      matchingMemo := None;
      cache := Cache(map[], map[], map[]);
    }

    lemma IdsDistinct()
      requires Valid()
      ensures DistinctIds(requests)
    {
      forall i, j | 0 <= i < j < |requests| ensures requests[i].id != requests[j].id {
        NatToStringInjective(i, j);
      }
    }

    /** The id a registered request carries finds it again. */
    lemma FindRegistered(i: nat)
      requires Valid() && i < |requests|
      ensures FindById(requests, NatToString(i)) == Some(requests[i])
    {
      IdsDistinct();
      FindOwnId(requests, i);
    }

    // --- Registration --------------------------------------------------------

    /** The shared tail of `requestInput` and `requestOutput`: the request gets the next id and its target is indexed. */
    method Register(target: Target, amount: real, dAmountdt: real, resourceType: ResourceType, multiplier: real)
      requires Valid()
      modifies this
      ensures Valid()
      ensures requests == old(requests) + [Request(NatToString(|old(requests)|), target, amount, dAmountdt, resourceType, multiplier)]
      ensures targetToRequest == old(targetToRequest)[target.ref := |old(requests)|]
      ensures cache == old(cache) && matchingMemo == old(matchingMemo)
    {
      var id := |requests|;
      requests := requests + [Request(NatToString(id), target, amount, dAmountdt, resourceType, multiplier)];
      targetToRequest := targetToRequest[target.ref := id];
    }

    /**
     * `requestInput`: the defaults are filled in first; a target outside the
     * colony room or an `'all'` type registers nothing; otherwise an unset (or
     * zero) amount becomes the target's free room and the request is appended.
     */
    method RequestInput(target: Target, opts: RequestOptions)
      requires Valid()
      modifies this, opts
      ensures Valid()
      ensures opts.resourceType == Some(Defaulted(old(opts.resourceType), Res(ENERGY)))
      ensures opts.multiplier == Some(Defaulted(old(opts.multiplier), 1.0))
      ensures opts.dAmountdt == Some(Defaulted(old(opts.dAmountdt), 0.0))
      ensures cache == old(cache) && matchingMemo == old(matchingMemo)
      ensures target.pos.roomName != colonyRoom || opts.resourceType.value.All? ==>
                requests == old(requests) && targetToRequest == old(targetToRequest) && opts.amount == old(opts.amount)
      ensures target.pos.roomName == colonyRoom && opts.resourceType.value.Res? ==>
                opts.amount == Some(if Truthy(old(opts.amount)) then old(opts.amount).value
                                    else InputAmount(target.kind, opts.resourceType.value.name)) &&
                requests == old(requests) + [Request(NatToString(|old(requests)|), target, opts.amount.value,
                                                     opts.dAmountdt.value, opts.resourceType.value, opts.multiplier.value)] &&
                targetToRequest == old(targetToRequest)[target.ref := |old(requests)|]
    {
      opts.FillDefaults();
      if target.pos.roomName != colonyRoom {
        return;
      }
      if opts.resourceType.value.All? {
        return;
      }
      if !Truthy(opts.amount) {
        opts.amount := Some(InputAmount(target.kind, opts.resourceType.value.name));
      }
      Register(target, opts.amount.value, opts.dAmountdt.value, opts.resourceType.value, opts.multiplier.value);
    }

    /**
     * `requestOutput`: the defaults are filled in, `'all'` on a store holding
     * only energy becomes energy, an unset (or zero) amount becomes what the
     * target holds, and then the amount and the rate are negated in the
     * options object itself before the request is appended.  There is no room check.
     */
    method RequestOutput(target: Target, opts: RequestOptions)
      requires Valid()
      modifies this, opts
      ensures Valid()
      ensures opts.resourceType == Some(OutputType(target.kind, Defaulted(old(opts.resourceType), Res(ENERGY))))
      ensures opts.multiplier == Some(Defaulted(old(opts.multiplier), 1.0))
      ensures opts.amount == Some(-(if Truthy(old(opts.amount)) then old(opts.amount).value
                                    else OutputAmount(target.kind, opts.resourceType.value)))
      ensures opts.dAmountdt == Some(-Defaulted(old(opts.dAmountdt), 0.0))
      ensures requests == old(requests) + [Request(NatToString(|old(requests)|), target, opts.amount.value,
                                                   opts.dAmountdt.value, opts.resourceType.value, opts.multiplier.value)]
      ensures targetToRequest == old(targetToRequest)[target.ref := |old(requests)|]
      ensures cache == old(cache) && matchingMemo == old(matchingMemo)
    {
      opts.FillDefaults();
      opts.resourceType := Some(OutputType(target.kind, opts.resourceType.value));
      if !Truthy(opts.amount) {
        opts.amount := Some(OutputAmount(target.kind, opts.resourceType.value));
      }
      opts.amount := Some(-opts.amount.value);
      opts.dAmountdt := Some(-opts.dAmountdt.value);
      Register(target, opts.amount.value, opts.dAmountdt.value, opts.resourceType.value, opts.multiplier.value);
    }

    /**
     * `requestOutputMinerals`: one output request per non-energy resource
     * type the store holds, all through the same options object.  The first
     * request negates the given (or computed) amount; every later one finds
     * that amount already set, so it negates the previous request's amount
     * and rate again instead of computing its own.  The store's keys are
     * filtered before the loop rather than inside it; the store does not
     * change meanwhile, so the same requests are made in the same order.
     */
    method RequestOutputMinerals(target: Target, opts: RequestOptions)
      requires Valid() && target.kind.StoreStructure?
      modifies this, opts
      ensures Valid()
      ensures cache == old(cache) && matchingMemo == old(matchingMemo)
      ensures MineralState(requests, targetToRequest, opts.amount, opts.dAmountdt, opts.multiplier) ==
              MineralsFold(MineralState(old(requests), old(targetToRequest), old(opts.amount), old(opts.dAmountdt),
                                        old(opts.multiplier)),
                           target, target.kind.store, Minerals(target.kind.store))
    {
      var store := target.kind.store;
      var ms := Minerals(store);
      MineralsInFacts(KeysOf(store), store);
      ghost var start := MineralState(requests, targetToRequest, opts.amount, opts.dAmountdt, opts.multiplier);
      var i := 0;
      while i < |ms|
        invariant 0 <= i <= |ms|
        invariant Valid()
        invariant cache == old(cache) && matchingMemo == old(matchingMemo)
        invariant MineralState(requests, targetToRequest, opts.amount, opts.dAmountdt, opts.multiplier) ==
                  MineralsFold(start, target, store, ms[..i])
      {
        OutputMineral(target, opts, ms[i]);
        PrefixGrow(ms, i);
        i := i + 1;
      }
      PrefixWhole(ms);
    }

    /** One step of `requestOutputMinerals`: an output request for mineral `t` through the shared options. */
    method OutputMineral(target: Target, opts: RequestOptions, t: string)
      requires Valid() && target.kind.StoreStructure? && AmountOf(target.kind.store, t) > 0.0
      modifies this, opts
      ensures Valid()
      ensures cache == old(cache) && matchingMemo == old(matchingMemo)
      ensures MineralState(requests, targetToRequest, opts.amount, opts.dAmountdt, opts.multiplier) ==
              OutputMineralState(MineralState(old(requests), old(targetToRequest), old(opts.amount), old(opts.dAmountdt),
                                              old(opts.multiplier)),
                                 target, target.kind.store, t)
    {
      opts.resourceType := Some(Res(t));
      RequestOutput(target, opts);
    }

    // --- Availability ----------------------------------------------------------

    /** `computeNextAvailability`, walking the legs one by one. */
    method ComputeNextAvailability(transporter: Zerg) returns (r: (int, Pos))
      ensures r == Availability(transporter.pos, transporter.task, range)
    {
      if transporter.task.None? {
        return (0, transporter.pos);
      }
      var task := transporter.task.value;
      var approximateDistance: int;
      var stops: seq<Pos>;
      if EtaKnown(task.eta) {
        approximateDistance := task.eta.value;
        stops := DropFirst(task.manifest);
      } else {
        approximateDistance := 0;
        stops := task.manifest;
      }
      var legs := WalkLegs(transporter.pos, stops, range);
      r := (approximateDistance + legs.0, legs.1);
    }

    /** `nextAvailability`: the cached availability, computed on first use. */
    method NextAvailability(transporter: Zerg) returns (r: (int, Pos))
      requires Valid() && Registered(transporter)
      modifies this
      ensures Valid()
      ensures r == Availability(transporter.pos, transporter.task, range)
      ensures cache == old(cache).(nextAvailability := old(cache.nextAvailability)[transporter.name := r])
      ensures requests == old(requests) && targetToRequest == old(targetToRequest) && matchingMemo == old(matchingMemo)
    {
      if transporter.name !in cache.nextAvailability {
        var a := ComputeNextAvailability(transporter);
        cache := cache.(nextAvailability := cache.nextAvailability[transporter.name := a]);
      }
      r := cache.nextAvailability[transporter.name];
    }

    // --- Predicted amounts -----------------------------------------------------

    /** `targetingTransporters`: the live transport creeps named by the target, less the excluded one. */
    function TargetingTransporters(names: seq<string>, excluded: string): (r: seq<Zerg>)
      ensures forall z :: z in r ==> z in zerg.Values && z.roleName == TRANSPORT_ROLE && z.name != excluded
      ensures forall n :: n in names && n in zerg && zerg[n].roleName == TRANSPORT_ROLE && zerg[n].name != excluded ==>
                zerg[n] in r
    {
      if names == [] then []
      else
        var rest := TargetingTransporters(names[1..], excluded);
        assert forall n :: n in names ==> n == names[0] || n in names[1..];
        if names[0] in zerg && zerg[names[0]].roleName == TRANSPORT_ROLE && zerg[names[0]].name != excluded
        then [zerg[names[0]]] + rest
        else rest
    }

    /** What the transporter will find at the request's target when it arrives after `avail`. */
    function AmountAt(transporter: Zerg, request: Request, avail: (int, Pos)): real
      reads zerg.Values
    {
      var others := TargetingTransporters(request.target.targetedBy, transporter.name);
      PredictedAmount(request, ArrivalTime(avail, request.target.pos, range),
                      Influx(others, request.resourceType), Outflux(others))
    }

    /** `predictedRequestAmount`, with the transporter's cached availability unless one is given. */
    method PredictedRequestAmount(transporter: Zerg, request: Request, avail: Option<(int, Pos)>) returns (r: real)
      requires Valid() && Registered(transporter)
      modifies this
      ensures Valid()
      ensures r == old(AmountAt(transporter, request,
                                if avail.Some? then avail.value else Availability(transporter.pos, transporter.task, range)))
      ensures avail.Some? ==> cache == old(cache)
      ensures avail.None? ==>
                cache == old(cache).(nextAvailability := old(cache.nextAvailability)[transporter.name :=
                                                          Availability(transporter.pos, transporter.task, range)])
      ensures requests == old(requests) && targetToRequest == old(targetToRequest) && matchingMemo == old(matchingMemo)
    {
      var a: (int, Pos);
      if avail.None? {
        a := NextAvailability(transporter);
      } else {
        a := avail.value;
      }
      r := AmountAt(transporter, request, a);
    }

    // --- Predicted carry -------------------------------------------------------

    /** The index of the request the transporter's task serves, when the index is truthy (not 0). */
    function CarryRequestIndex(task: Option<Task>): Option<nat>
      reads this
    {
      if task.Some? && task.value.target.Some? && task.value.target.value in targetToRequest &&
         targetToRequest[task.value.target.value] != 0
      then Some(targetToRequest[task.value.target.value])
      else None
    }

    /** The prediction ends in `{energy: 0}`, leaving the carry alone. */
    predicate CarryErrorCase(transporter: Zerg)
      reads this
    {
      match CarryRequestIndex(transporter.task)
      case None => false
      case Some(i) => i < |requests| && CarryTypeError(requests[i])
    }

    /** `computePredictedTransporterCarry` as a value: the store the prediction returns. */
    function CarryPrediction(transporter: Zerg): Store
      reads this, zerg.Values
      requires Valid() && Registered(transporter)
    {
      match CarryRequestIndex(transporter.task)
      case None => transporter.carry
      case Some(i) =>
        var request := requests[i];
        if CarryTypeError(request) then [Entry(ENERGY, 0.0)]
        else
          PredictCarry(transporter.carry, request,
                       -AmountAt(transporter, request, Availability(transporter.pos, transporter.task, range)),
                       transporter.carryCapacity - SumValues(transporter.carry))
    }

    /**
     * The request registered first (index 0) is never used for the
     * prediction: its index is falsy, so the carry is returned as it is.
     */
    lemma FirstRequestIgnored(transporter: Zerg)
      requires Valid() && Registered(transporter)
      requires transporter.task.Some? && transporter.task.value.target.Some?
      requires transporter.task.value.target.value in targetToRequest
      requires targetToRequest[transporter.task.value.target.value] == 0
      ensures CarryPrediction(transporter) == transporter.carry
      ensures !CarryErrorCase(transporter)
    {
    }

    /** With a truthy request index and no type error, the prediction is that request's carry update. */
    lemma CarryPredictionServes(transporter: Zerg, i: nat)
      requires Valid() && Registered(transporter)
      requires CarryRequestIndex(transporter.task) == Some(i) && !CarryTypeError(requests[i])
      ensures CarryPrediction(transporter) ==
              PredictCarry(transporter.carry, requests[i],
                           -AmountAt(transporter, requests[i], Availability(transporter.pos, transporter.task, range)),
                           transporter.carryCapacity - SumValues(transporter.carry))
    {
    }

    /**
     * `computePredictedTransporterCarry`: when the task's target has a
     * truthy request index, the transporter's own carry is changed in place
     * by the prediction and returned; otherwise the carry is returned as is.
     */
    method ComputePredictedTransporterCarry(transporter: Zerg) returns (r: Store)
      requires Valid() && Registered(transporter)
      modifies this, transporter
      ensures Valid()
      ensures r == old(CarryPrediction(transporter))
      ensures transporter.carry == if old(CarryErrorCase(transporter)) then old(transporter.carry) else r
      ensures old(CarryRequestIndex(transporter.task)).None? ==> cache == old(cache)
      ensures old(CarryRequestIndex(transporter.task)).Some? ==>
                cache == old(cache).(nextAvailability := old(cache.nextAvailability)[transporter.name :=
                                                          Availability(transporter.pos, transporter.task, range)])
      ensures requests == old(requests) && targetToRequest == old(targetToRequest) && matchingMemo == old(matchingMemo)
    {
      ghost var expected := CarryPrediction(transporter);
      r := transporter.carry;
      var index := CarryRequestIndex(transporter.task);
      if index.None? {
        assert r == expected;
        return;
      }
      var request := requests[index.value];
      var room := transporter.carryCapacity - SumValues(transporter.carry);
      if !CarryTypeError(request) {
        CarryPredictionServes(transporter, index.value);
      }
      var amount := PredictedRequestAmount(transporter, request, None);
      if CarryTypeError(request) {
        r := [Entry(ENERGY, 0.0)];
        assert r == expected;
        return;
      }
      ApplyCarryPrediction(transporter, r, request, -amount, room);
      r := transporter.carry;
      assert r == expected;
    }

    /** `predictedTransporterCarry`: the cached prediction, computed on first use. */
    method PredictedTransporterCarry(transporter: Zerg) returns (r: Store)
      requires Valid() && Registered(transporter)
      modifies this, transporter
      ensures Valid()
      ensures transporter.name in cache.predictedCarry && r == cache.predictedCarry[transporter.name]
      ensures transporter.name in old(cache.predictedCarry) ==>
                r == old(cache.predictedCarry)[transporter.name] && cache == old(cache) &&
                transporter.carry == old(transporter.carry)
      ensures transporter.name !in old(cache.predictedCarry) ==>
                r == old(CarryPrediction(transporter)) && cache.predictedCarry == old(cache.predictedCarry)[transporter.name := r] &&
                transporter.carry == (if old(CarryErrorCase(transporter)) then old(transporter.carry) else r)
      ensures requests == old(requests) && targetToRequest == old(targetToRequest)
      ensures cache.resourceChangeRate == old(cache.resourceChangeRate) && matchingMemo == old(matchingMemo)
    {
      if transporter.name !in cache.predictedCarry {
        var c := ComputePredictedTransporterCarry(transporter);
        cache := cache.(predictedCarry := cache.predictedCarry[transporter.name := c]);
      }
      r := cache.predictedCarry[transporter.name];
    }

    // --- Routes and rates ------------------------------------------------------

    /** The transporter is already working on this request's target, so it plans with its current carry. */
    predicate UsesTaskCarry(transporter: Zerg, request: Request)
    {
      transporter.task.Some? && transporter.task.value.target == Some(request.target.ref)
    }

    /** The carry `bufferChoices` plans with. */
    function CarryUsed(transporter: Zerg, request: Request): Store
      reads this, transporter
    {
      if UsesTaskCarry(transporter, request) || transporter.name !in cache.predictedCarry then transporter.carry
      else cache.predictedCarry[transporter.name]
    }

    /** `bufferChoices`: the direct route and the one-buffer detours for this transporter and request. */
    method BufferChoices(transporter: Zerg, request: Request) returns (choices: seq<Choice>)
      requires Valid() && Registered(transporter)
      modifies this, transporter
      ensures Valid()
      ensures choices == Choices(old(AmountAt(transporter, request, Availability(transporter.pos, transporter.task, range))),
                                 Availability(transporter.pos, transporter.task, range),
                                 CarryUsed(transporter, request), transporter.carryCapacity, request,
                                 buffers, range, pathDistance)
      ensures !UsesTaskCarry(transporter, request) ==> transporter.name in cache.predictedCarry
      ensures UsesTaskCarry(transporter, request) ==>
                transporter.carry == old(transporter.carry) && cache.predictedCarry == old(cache.predictedCarry)
      ensures cache.resourceChangeRate == old(cache.resourceChangeRate)
      ensures requests == old(requests) && targetToRequest == old(targetToRequest) && matchingMemo == old(matchingMemo)
    {
      var avail := NextAvailability(transporter);
      var amount := PredictedRequestAmount(transporter, request, Some(avail));
      var carry: Store;
      if !UsesTaskCarry(transporter, request) {
        carry := PredictedTransporterCarry(transporter);
      } else {
        carry := transporter.carry;
      }
      choices := PlanRoutes(amount, avail, carry, transporter.carryCapacity, request, buffers, range, pathDistance);
    }

    /** `cache.resourceChangeRate[id][name]`; absent entries read as `undefined`. */
    function CachedRate(id: string, name: string): Option<real>
      reads this
    {
      RateIn(cache.resourceChangeRate, id, name)
    }

    /** The rates cached for one request, by transporter name; empty when none are. */
    function RateRow(id: string): map<string, Option<real>>
      reads this
    {
      if id in cache.resourceChangeRate then cache.resourceChangeRate[id] else map[]
    }

    /**
     * `resourceChangeRate`: the cached rate when it is truthy; otherwise the
     * best route rate is computed and stored (an absent or zero entry is
     * recomputed on every call).
     */
    method ResourceChangeRate(transporter: Zerg, request: Request) returns (r: Option<real>)
      requires Valid() && Registered(transporter)
      modifies this, transporter
      ensures Valid()
      ensures r == CachedRate(request.id, transporter.name)
      ensures Truthy(old(CachedRate(request.id, transporter.name))) ==>
                r == old(CachedRate(request.id, transporter.name)) && transporter.carry == old(transporter.carry) &&
                cache == old(cache)
      ensures !Truthy(old(CachedRate(request.id, transporter.name))) ==>
                cache.resourceChangeRate == old(cache.resourceChangeRate)[request.id := old(RateRow(request.id))[transporter.name := r]]
      ensures OnlyRateChanged(old(cache.resourceChangeRate), cache.resourceChangeRate, request.id, transporter.name)
      ensures RatesKept(old(cache.resourceChangeRate), cache.resourceChangeRate)
      ensures !Truthy(old(CachedRate(request.id, transporter.name))) ==>
                r == BestRate(request.multiplier,
                              Choices(old(AmountAt(transporter, request, Availability(transporter.pos, transporter.task, range))),
                                      Availability(transporter.pos, transporter.task, range),
                                      CarryUsed(transporter, request), transporter.carryCapacity, request,
                                      buffers, range, pathDistance))
      ensures requests == old(requests) && targetToRequest == old(targetToRequest) && matchingMemo == old(matchingMemo)
    {
      // The row is created empty when missing, then the rate is filled in unless a truthy one is there.
      var row := RateRow(request.id);
      if !Truthy(CachedRate(request.id, transporter.name)) {
        var best := FreshRate(transporter, request);
        FillKeepsRates(cache.resourceChangeRate, request.id, transporter.name, best);
        cache := cache.(resourceChangeRate := cache.resourceChangeRate[request.id := row[transporter.name := best]]);
      }
      r := CachedRate(request.id, transporter.name);
    }

    /** The rate `resourceChangeRate` computes when nothing truthy is cached: the best of the buffer choices. */
    method FreshRate(transporter: Zerg, request: Request) returns (best: Option<real>)
      requires Valid() && Registered(transporter)
      modifies this, transporter
      ensures Valid()
      ensures best == BestRate(request.multiplier,
                               Choices(old(AmountAt(transporter, request, Availability(transporter.pos, transporter.task, range))),
                                       Availability(transporter.pos, transporter.task, range),
                                       CarryUsed(transporter, request), transporter.carryCapacity, request,
                                       buffers, range, pathDistance))
      ensures cache.resourceChangeRate == old(cache.resourceChangeRate)
      ensures requests == old(requests) && targetToRequest == old(targetToRequest) && matchingMemo == old(matchingMemo)
    {
      var choices := BufferChoices(transporter, request);
      best := BestRate(request.multiplier, choices);
    }

    // --- Preferences and matching ----------------------------------------------

    /** The cached rates of one transporter for each request, in request order. */
    function RatesOf(rs: seq<Request>, name: string): (keys: seq<Option<real>>)
      reads this
      ensures |keys| == |rs| && forall i :: 0 <= i < |rs| ==> keys[i] == CachedRate(rs[i].id, name)
    {
      RatesFor(cache.resourceChangeRate, rs, name)
    }

    /** The cached rates of each transporter for one request, in transporter order. */
    function RatesAcross(id: string, ts: seq<Zerg>): (keys: seq<Option<real>>)
      reads this
      ensures |keys| == |ts| && forall i :: 0 <= i < |ts| ==> keys[i] == CachedRate(id, ts[i].name)
    {
      RatesAcrossIn(cache.resourceChangeRate, id, ts)
    }

    /** `transporterPreferences`: every request, best rate first, ties in registration order. */
    method TransporterPreferences(transporter: Zerg) returns (prefs: seq<Request>)
      requires Valid() && Registered(transporter)
      modifies this, transporter
      ensures Valid()
      ensures prefs == Arrange(requests, StableOrder(RatesOf(requests, transporter.name)))
      ensures multiset(prefs) == multiset(requests)
      ensures OnlyNameChanged(old(cache.resourceChangeRate), cache.resourceChangeRate, transporter.name)
      ensures RatesKept(old(cache.resourceChangeRate), cache.resourceChangeRate)
      ensures requests == old(requests) && targetToRequest == old(targetToRequest) && matchingMemo == old(matchingMemo)
    {
      IdsDistinct();
      var keys: seq<Option<real>> := [];
      var i := 0;
      while i < |requests|
        invariant 0 <= i <= |requests| && |keys| == i
        invariant Valid()
        invariant requests == old(requests) && targetToRequest == old(targetToRequest) && matchingMemo == old(matchingMemo)
        invariant forall j :: 0 <= j < i ==> keys[j] == CachedRate(requests[j].id, transporter.name)
        invariant OnlyNameChanged(old(cache.resourceChangeRate), cache.resourceChangeRate, transporter.name)
        invariant RatesKept(old(cache.resourceChangeRate), cache.resourceChangeRate)
      {
        ghost var before := cache.resourceChangeRate;
        var rate := ResourceChangeRate(transporter, requests[i]);
        RatesKeptTrans(old(cache.resourceChangeRate), before, cache.resourceChangeRate);
        OnlyNameChangedStep(old(cache.resourceChangeRate), before, cache.resourceChangeRate, requests[i].id, transporter.name);
        keys := keys + [rate];
        i := i + 1;
      }
      assert keys == RatesOf(requests, transporter.name);
      prefs := Arrange(requests, StableOrder(keys));
      ArrangeIsPermutation(requests, keys);
    }

    /** `requestPreferences`: every transporter, best rate first, ties in the given order. */
    method RequestPreferences(request: Request, transporters: seq<Zerg>) returns (prefs: seq<Zerg>)
      requires Valid() && (forall t :: t in transporters ==> Registered(t)) && DistinctNames(transporters)
      modifies this, transporters
      ensures Valid()
      ensures prefs == Arrange(transporters, StableOrder(RatesAcross(request.id, transporters)))
      ensures multiset(prefs) == multiset(transporters)
      ensures OnlyIdChanged(old(cache.resourceChangeRate), cache.resourceChangeRate, request.id)
      ensures RatesKept(old(cache.resourceChangeRate), cache.resourceChangeRate)
      ensures requests == old(requests) && targetToRequest == old(targetToRequest) && matchingMemo == old(matchingMemo)
    {
      var keys: seq<Option<real>> := [];
      var i := 0;
      while i < |transporters|
        invariant 0 <= i <= |transporters| && |keys| == i
        invariant Valid()
        invariant requests == old(requests) && targetToRequest == old(targetToRequest) && matchingMemo == old(matchingMemo)
        invariant forall j :: 0 <= j < i ==> keys[j] == CachedRate(request.id, transporters[j].name)
        invariant OnlyIdChanged(old(cache.resourceChangeRate), cache.resourceChangeRate, request.id)
        invariant RatesKept(old(cache.resourceChangeRate), cache.resourceChangeRate)
      {
        ghost var before := cache.resourceChangeRate;
        var rate := ResourceChangeRate(transporters[i], request);
        RatesKeptTrans(old(cache.resourceChangeRate), before, cache.resourceChangeRate);
        OnlyIdChangedStep(old(cache.resourceChangeRate), before, cache.resourceChangeRate, request.id, transporters[i].name);
        keys := keys + [rate];
        i := i + 1;
      }
      assert keys == RatesAcross(request.id, transporters);
      prefs := Arrange(transporters, StableOrder(keys));
      ArrangeIsPermutation(transporters, keys);
    }

    /** The `transporterPreferences` of every transporter, as request ids, keyed by name. */
    method AllTransporterPreferences(transporters: seq<Zerg>) returns (tPrefs: map<string, seq<string>>)
      requires Valid() && (forall t :: t in transporters ==> Registered(t))
      modifies this, transporters
      ensures Valid()
      ensures RanksAll(tPrefs, NameSet(transporters), IdsOf(requests))
      ensures TransportersRanked(tPrefs, requests, transporters, |transporters|, cache.resourceChangeRate)
      ensures RatesKept(old(cache.resourceChangeRate), cache.resourceChangeRate)
      ensures requests == old(requests) && targetToRequest == old(targetToRequest) && matchingMemo == old(matchingMemo)
    {
      tPrefs := map[];
      var i := 0;
      while i < |transporters|
        invariant 0 <= i <= |transporters|
        invariant Valid()
        invariant requests == old(requests) && targetToRequest == old(targetToRequest) && matchingMemo == old(matchingMemo)
        invariant RanksAll(tPrefs, NameSet(transporters[..i]), IdsOf(requests))
        invariant TransportersRanked(tPrefs, requests, transporters, i, cache.resourceChangeRate)
        invariant RatesKept(old(cache.resourceChangeRate), cache.resourceChangeRate)
      {
        ghost var before := cache.resourceChangeRate;
        NameSetGrow(transporters, i);
        var prefs := TransporterPreferences(transporters[i]);
        RatesKeptTrans(old(cache.resourceChangeRate), before, cache.resourceChangeRate);
        TransportersRankedStep(tPrefs, requests, transporters, i, before, cache.resourceChangeRate);
        IdsPermuted(requests, RatesOf(requests, transporters[i].name));
        RanksAllAdd(tPrefs, NameSet(transporters[..i]), IdsOf(requests), transporters[i].name, IdsOf(prefs));
        tPrefs := tPrefs[transporters[i].name := IdsOf(prefs)];
        i := i + 1;
      }
      PrefixWhole(transporters);
    }

    /** The `requestPreferences` of every request, as transporter names, keyed by id. */
    method AllRequestPreferences(transporters: seq<Zerg>) returns (rPrefs: map<string, seq<string>>)
      requires Valid() && (forall t :: t in transporters ==> Registered(t)) && DistinctNames(transporters)
      modifies this, transporters
      ensures Valid()
      ensures RanksAll(rPrefs, IdSet(requests), NamesOf(transporters))
      ensures RequestsRanked(rPrefs, requests, |requests|, transporters, cache.resourceChangeRate)
      ensures RatesKept(old(cache.resourceChangeRate), cache.resourceChangeRate)
      ensures requests == old(requests) && targetToRequest == old(targetToRequest) && matchingMemo == old(matchingMemo)
    {
      IdsDistinct();
      rPrefs := map[];
      var k := 0;
      while k < |requests|
        invariant 0 <= k <= |requests|
        invariant Valid()
        invariant requests == old(requests) && targetToRequest == old(targetToRequest) && matchingMemo == old(matchingMemo)
        invariant RanksAll(rPrefs, IdSet(requests[..k]), NamesOf(transporters))
        invariant RequestsRanked(rPrefs, requests, k, transporters, cache.resourceChangeRate)
        invariant RatesKept(old(cache.resourceChangeRate), cache.resourceChangeRate)
      {
        ghost var before := cache.resourceChangeRate;
        var prefs := RequestPreferences(requests[k], transporters);
        RatesKeptTrans(old(cache.resourceChangeRate), before, cache.resourceChangeRate);
        RequestsRankedStep(rPrefs, requests, k, transporters, before, cache.resourceChangeRate);
        NamesPermuted(transporters, RatesAcross(requests[k].id, transporters));
        IdSetGrow(requests, k);
        RanksAllAdd(rPrefs, IdSet(requests[..k]), NamesOf(transporters), requests[k].id, NamesOf(prefs));
        rPrefs := rPrefs[requests[k].id := NamesOf(prefs)];
        k := k + 1;
      }
      PrefixWhole(requests);
    }

    /** `stableMatching`: preferences both ways, handed to the matcher. */
    method StableMatching(transporters: seq<Zerg>) returns (result: map<string, Option<Request>>)
      requires Valid() && (forall t :: t in transporters ==> Registered(t)) && DistinctNames(transporters)
      modifies this, transporters
      ensures Valid()
      ensures exists mid :: RatesKept(old(cache.resourceChangeRate), mid) && RatesKept(mid, cache.resourceChangeRate) &&
                           MatchesPreferences(result, requests, matcher, transporters, mid, cache.resourceChangeRate)
      ensures requests == old(requests) && targetToRequest == old(targetToRequest) && matchingMemo == old(matchingMemo)
    {
      var tPrefs := AllTransporterPreferences(transporters);
      ghost var mid := cache.resourceChangeRate;
      var rPrefs := AllRequestPreferences(transporters);
      result := Resolve(requests, matcher(tPrefs, rPrefs));
      assert MatchesPreferences(result, requests, matcher, transporters, mid, cache.resourceChangeRate);
    }

    /** The `matching` getter: computed once, then returned as stored. */
    method Matching(transporters: seq<Zerg>) returns (result: map<string, Option<Request>>)
      requires Valid() && (forall t :: t in transporters ==> Registered(t)) && DistinctNames(transporters)
      modifies this, transporters
      ensures Valid()
      ensures matchingMemo == Some(result)
      ensures old(matchingMemo).Some? ==>
                result == old(matchingMemo).value && cache == old(cache)
      ensures old(matchingMemo).None? ==>
                exists mid :: RatesKept(old(cache.resourceChangeRate), mid) && RatesKept(mid, cache.resourceChangeRate) &&
                              MatchesPreferences(result, requests, matcher, transporters, mid, cache.resourceChangeRate)
      ensures requests == old(requests) && targetToRequest == old(targetToRequest)
    {
      if matchingMemo.None? {
        var m := StableMatching(transporters);
        matchingMemo := Some(m);
      }
      result := matchingMemo.value;
    }

    /**
     * `invalidateCache`: drops the transporter's availability and carry
     * entries, then its rate for the request; the last step throws when the
     * request has no rate table yet, reported here as `thrown`.
     */
    method InvalidateCache(transporter: Zerg, request: Request) returns (thrown: bool)
      requires Valid()
      modifies this
      ensures Valid()
      ensures cache.nextAvailability == old(cache.nextAvailability) - {transporter.name}
      ensures cache.predictedCarry == old(cache.predictedCarry) - {transporter.name}
      ensures thrown <==> request.id !in old(cache.resourceChangeRate)
      ensures thrown ==> cache.resourceChangeRate == old(cache.resourceChangeRate)
      ensures !thrown ==> cache.resourceChangeRate == old(cache.resourceChangeRate)[request.id := old(cache.resourceChangeRate)[request.id] - {transporter.name}]
      ensures forall id, n :: id != request.id || n != transporter.name ==> CachedRate(id, n) == old(CachedRate(id, n))
      ensures CachedRate(request.id, transporter.name).None?
      ensures requests == old(requests) && targetToRequest == old(targetToRequest) && matchingMemo == old(matchingMemo)
    {
      cache := cache.(nextAvailability := cache.nextAvailability - {transporter.name});
      cache := cache.(predictedCarry := cache.predictedCarry - {transporter.name});
      if request.id !in cache.resourceChangeRate {
        return true;
      }
      cache := cache.(resourceChangeRate := cache.resourceChangeRate[request.id := cache.resourceChangeRate[request.id] - {transporter.name}]);
      thrown := false;
    }
  }

  /**
   * The in-place half of `computePredictedTransporterCarry`: every write of
   * the prediction lands in the transporter's own carry object.
   */
  method ApplyCarryPrediction(transporter: Zerg, carry: Store, request: Request, amount: real, room: real)
    requires !CarryTypeError(request) && transporter.carry == carry
    modifies transporter
    ensures transporter.carry == PredictCarry(carry, request, amount, room)
  {
    if request.resourceType.All? {
      var store := request.target.kind.store;
      var keys := KeysOf(store);
      var share := ShareOf(store, amount);
      var i := 0;
      while i < |keys|
        invariant 0 <= i <= |keys|
        invariant transporter.carry == SpreadAll(carry, keys[..i], share, amount, room)
      {
        PrefixGrow(keys, i);
        var resourceType := keys[i];
        transporter.carry := Bump(transporter.carry, resourceType, share(resourceType), amount, room);
        i := i + 1;
      }
      PrefixWhole(keys);
    } else {
      transporter.carry := Bump(transporter.carry, request.resourceType.name, amount, amount, room);
    }
  }

  /** The amount the first mineral request negates: the caller's, unless unset or zero. */
  function MineralAmount(given: Option<real>, store: Store, ms: seq<string>): real
  {
    if Truthy(given) then given.value else if ms == [] then 0.0 else AmountOf(store, ms[0])
  }

  /**
   * The requests `requestOutputMinerals` appends, one per mineral in order
   * (their ids are their positions, as for every request): the first negates
   * `amount` and `rate`, and
   * each later one negates its predecessor's amount and rate again.
   */
  predicate MineralRun(run: seq<Request>, ms: seq<string>, target: Target, multiplier: real, amount: real, rate: real)
  {
    |run| == |ms| &&
    (forall k :: 0 <= k < |run| ==>
       run[k].target == target &&
       run[k].resourceType == Res(ms[k]) && run[k].multiplier == multiplier) &&
    (|run| > 0 ==> run[0].amount == -amount && run[0].dAmountdt == -rate) &&
    (forall k :: 0 < k < |run| ==> run[k].amount == -run[k - 1].amount && run[k].dAmountdt == -run[k - 1].dAmountdt)
  }

  lemma MineralRunExtend(run: seq<Request>, ms: seq<string>, target: Target, multiplier: real,
                         amount: real, rate: real, r: Request, t: string)
    requires MineralRun(run, ms, target, multiplier, amount, rate)
    requires r.target == target && r.resourceType == Res(t) && r.multiplier == multiplier
    requires run == [] ==> r.amount == -amount && r.dAmountdt == -rate
    requires run != [] ==> r.amount == -run[|run| - 1].amount && r.dAmountdt == -run[|run| - 1].dAmountdt
    ensures MineralRun(run + [r], ms + [t], target, multiplier, amount, rate)
  {
  }

  /** The part of the network and of the shared options that `requestOutputMinerals` changes. */
  datatype MineralState = MineralState(requests: seq<Request>, targetToRequest: map<string, nat>,
                                       amount: Option<real>, dAmountdt: Option<real>, multiplier: Option<real>)

  /** One `requestOutput` for mineral `t` through the shared options. */
  function OutputMineralState(s: MineralState, target: Target, store: Store, t: string): MineralState
  {
    var r := Request(NatToString(|s.requests|), target,
                     -(if Truthy(s.amount) then s.amount.value else AmountOf(store, t)),
                     -Defaulted(s.dAmountdt, 0.0), Res(t), Defaulted(s.multiplier, 1.0));
    MineralState(s.requests + [r], s.targetToRequest[target.ref := |s.requests|],
                 Some(r.amount), Some(r.dAmountdt), Some(r.multiplier))
  }

  /** `requestOutputMinerals` as a value: one output request per mineral, in order. */
  function MineralsFold(s: MineralState, target: Target, store: Store, ms: seq<string>): MineralState
  {
    if ms == [] then s
    else OutputMineralState(MineralsFold(s, target, store, ms[..|ms| - 1]), target, store, ms[|ms| - 1])
  }

  /**
   * After the minerals `ms` have been requested: the registry has grown by
   * one request per mineral (a `MineralRun`), the target points at the last
   * of them, and the shared options hold that request's amount and rate; with
   * no mineral, nothing has changed.
   */
  predicate MineralProgress(start: MineralState, target: Target, store: Store, ms: seq<string>, s: MineralState)
  {
    RunSoFar(start, target, store, ms, s) && OptionsSoFar(start, target, s)
  }

  /** The registry has grown by one request per mineral, forming a `MineralRun`. */
  predicate RunSoFar(start: MineralState, target: Target, store: Store, ms: seq<string>, s: MineralState)
  {
    var n0 := |start.requests|;
    n0 <= |s.requests| && s.requests[..n0] == start.requests &&
    MineralRun(s.requests[n0..], ms, target, Defaulted(start.multiplier, 1.0),
               MineralAmount(start.amount, store, ms), Defaulted(start.dAmountdt, 0.0))
  }

  /** The index and the shared options follow the last request registered, if any. */
  predicate OptionsSoFar(start: MineralState, target: Target, s: MineralState)
  {
    var n0 := |start.requests|;
    n0 <= |s.requests| &&
    (|s.requests| == n0 ==> s == start) &&
    (|s.requests| > n0 ==>
       var last := s.requests[|s.requests| - 1];
       s.targetToRequest == start.targetToRequest[target.ref := |s.requests| - 1] &&
       s.amount == Some(last.amount) && last.amount != 0.0 &&
       s.dAmountdt == Some(last.dAmountdt) && s.multiplier == Some(Defaulted(start.multiplier, 1.0)))
  }

  /** One more mineral, held in a positive amount, keeps the progress. */
  lemma MineralStep(start: MineralState, target: Target, store: Store, ms: seq<string>, t: string, s: MineralState)
    requires MineralProgress(start, target, store, ms, s) && AmountOf(store, t) > 0.0
    ensures MineralProgress(start, target, store, ms + [t], OutputMineralState(s, target, store, t))
  {
    RunStep(start, target, store, ms, t, s);
    OptionsStep(start, target, store, ms, t, s);
  }

  lemma RunStep(start: MineralState, target: Target, store: Store, ms: seq<string>, t: string, s: MineralState)
    requires MineralProgress(start, target, store, ms, s)
    ensures RunSoFar(start, target, store, ms + [t], OutputMineralState(s, target, store, t))
  {
    var n0 := |start.requests|;
    var s' := OutputMineralState(s, target, store, t);
    var r := s'.requests[|s.requests|];
    var first := MineralAmount(start.amount, store, ms + [t]);
    var mult := Defaulted(start.multiplier, 1.0);
    var rate := Defaulted(start.dAmountdt, 0.0);
    assert MineralRun(s.requests[n0..], ms, target, mult, first, rate) by {
      if ms != [] {
        assert (ms + [t])[0] == ms[0];
      }
    }
    MineralRunExtend(s.requests[n0..], ms, target, mult, first, rate, r, t);
    assert s'.requests[n0..] == s.requests[n0..] + [r];
    assert s'.requests[..n0] == s.requests[..n0];
  }

  lemma OptionsStep(start: MineralState, target: Target, store: Store, ms: seq<string>, t: string, s: MineralState)
    requires MineralProgress(start, target, store, ms, s) && AmountOf(store, t) > 0.0
    ensures OptionsSoFar(start, target, OutputMineralState(s, target, store, t))
  {
  }

  /**
   * The requests `requestOutputMinerals` registers alternate in sign: the
   * first negates the caller's amount (or the store's amount of the first
   * mineral), each later one negates the one before, and the target ends up
   * pointing at the last of them.
   */
  lemma {:induction false} MineralsFoldProgress(start: MineralState, target: Target, store: Store, ms: seq<string>)
    requires forall m :: m in ms ==> AmountOf(store, m) > 0.0
    ensures MineralProgress(start, target, store, ms, MineralsFold(start, target, store, ms))
  {
    if ms == [] {
      assert start.requests[|start.requests|..] == [];
    } else {
      var init := ms[..|ms| - 1];
      assert forall m :: m in init ==> m in ms;
      MineralsFoldProgress(start, target, store, init);
      MineralStep(start, target, store, init, ms[|ms| - 1], MineralsFold(start, target, store, init));
      FrontLast(ms);
    }
  }

  /** The non-energy resource types among `keys` that the store holds a positive amount of, in order. */
  function MineralsIn(keys: seq<string>, store: Store): seq<string>
  {
    if keys == [] then []
    else
      var last := keys[|keys| - 1];
      MineralsIn(keys[..|keys| - 1], store) + (if last != ENERGY && AmountOf(store, last) > 0.0 then [last] else [])
  }

  /** Every mineral listed is a key given, is not energy, and is held in a positive amount. */
  lemma {:induction false} MineralsInFacts(keys: seq<string>, store: Store)
    ensures forall m :: m in MineralsIn(keys, store) ==> m in keys && m != ENERGY && AmountOf(store, m) > 0.0
    ensures |MineralsIn(keys, store)| <= |keys|
  {
    if keys != [] {
      MineralsInFacts(keys[..|keys| - 1], store);
      assert forall m :: m in keys[..|keys| - 1] ==> m in keys;
    }
  }

  /** The minerals `requestOutputMinerals` asks to collect, in store order. */
  function Minerals(store: Store): seq<string>
  {
    MineralsIn(KeysOf(store), store)
  }
}
